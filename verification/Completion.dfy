/**
 From any state in which nothing is held, an unfinished task can be brought to its end by the
 tool's own commands, as long as nothing but pieces is stored under its objects: the operator's
 way there, as histories of the state machine.
 */
module Completion {
  import opened Wrappers
  import opened Capacity
  import opened Ledger
  import opened LedgerInvariants
  import opened LedgerTheorems
  import opened LedgerOutcomes
  import opened Storage
  import opened System
  import opened SystemInvariants
  import Batches
  import CommandSteps
  import PieceKeys

  // ---------------------------------------------------------------- continuations

  /** `more` goes on from where `r` ends, and nobody else puts anything into the bucket meanwhile. */
  ghost predicate Continues(r: Run, more: Run) {
    && Happened(more) && r.states <= more.states && r.events <= more.events
    && forall i :: |r.events| <= i < |more.events| ==> !more.events[i].WriteBack?
  }

  lemma Step(r: Run, e: Event, next: Sys) returns (more: Run)
    requires Happened(r) && Apply(Last(r), e) == Some(next) && !e.WriteBack?
    ensures Continues(r, more) && Last(more) == next && Good(next)
  {
    more := Extend(r, e, next);
    AlwaysGood(more, |more.events|);
  }

  lemma Chain(a: Run, b: Run, c: Run)
    requires Continues(a, b) && Continues(b, c)
    ensures Continues(a, c)
  {
    assert forall i :: |a.events| <= i < |b.events| ==> c.events[i] == b.events[i];
  }

  lemma EndIsGood(r: Run)
    requires Happened(r)
    ensures Good(Last(r)) && Inv(Last(r).db)
  {
    AlwaysGood(r, |r.events|);
  }

  lemma NewTaskIsNumbered(s: Sys, e: Event, next: Sys, t: TaskId)
    requires Apply(s, e) == Some(next) && Batches.Creates(e) && t in next.db.tasks && t !in s.db.tasks
    ensures 0 < t
  {
    Batches.CreateAdds(s, e, next, t);
  }

  /** Tasks are numbered from 1. */
  lemma {:induction false} Numbered(r: Run, n: nat, t: TaskId)
    requires Happened(r) && n <= |r.events| && t in r.states[n].db.tasks
    ensures 0 < t
    decreases n
  {
    if n > 0 {
      var s, e, next := r.states[n - 1], r.events[n - 1], r.states[n];
      assert Apply(s, e) == Some(next);
      if t in s.db.tasks {
        Numbered(r, n - 1, t);
      } else if Batches.Creates(e) {
        NewTaskIsNumbered(s, e, next, t);
      } else {
        Batches.OnlyCreateAllocates(s, e, next);
      }
    }
  }

  // ---------------------------------------------------------------- what a command leaves alone

  /** The list, the assignments and the holds are as they were, and no task but `t` has lost its verification. */
  ghost predicate WorkedOn(db: Db, after: Db, t: TaskId) {
    && after.meta == db.meta && after.scan == db.scan
    && after.members.Keys == db.members.Keys && after.tasks.Keys == db.tasks.Keys
    && (forall k :: k in db.members ==> after.members[k].deferred == db.members[k].deferred)
    && (forall u :: u in db.tasks ==> after.tasks[u].holdReason == db.tasks[u].holdReason)
    && (forall u :: u in db.tasks && u != t ==> after.tasks[u].done == db.tasks[u].done)
  }

  lemma WorkedOnTwice(a: Db, b: Db, c: Db, t: TaskId)
    requires WorkedOn(a, b, t) && WorkedOn(b, c, t)
    ensures WorkedOn(a, c, t)
  {
  }

  lemma WorkedOnKeeps(db: Db, after: Db, t: TaskId)
    requires WorkedOn(db, after, t)
    ensures Sealed(db) <==> Sealed(after)
    ensures NoHold(db) <==> NoHold(after)
    ensures forall u, o :: Active(after, u, o) <==> Active(db, u, o)
  {
  }

  /** Some finished task has dealt with the object. */
  ghost predicate Settled(db: Db, o: Oid) {
    exists t :: Active(db, t, o) && t in db.tasks && db.tasks[t].done
  }

  /** Everything stored under a listed object that is not settled is a piece of it. */
  ghost predicate OnlyPieces(db: Db, store: map<string, nat>) {
    forall o, k :: o in db.scan && !Settled(db, o) && k in Residues(store, o) ==> PieceKeys.PieceOf(o, k)
  }

  lemma FewerResidues(store: map<string, nat>, later: map<string, nat>, o: Oid)
    requires later.Keys <= store.Keys
    ensures Residues(later, o) <= Residues(store, o)
  {
  }

  lemma StillSettled(db: Db, after: Db, t: TaskId, o: Oid)
    requires WorkedOn(db, after, t) && t in db.tasks && !db.tasks[t].done && Settled(db, o)
    ensures Settled(after, o)
  {
    WorkedOnKeeps(db, after, t);
    var u :| Active(db, u, o) && u in db.tasks && db.tasks[u].done;
    assert Active(after, u, o) && after.tasks[u].done;
  }

  lemma StillOnlyPieces(db: Db, store: map<string, nat>, after: Db, later: map<string, nat>, t: TaskId)
    requires OnlyPieces(db, store) && later.Keys <= store.Keys
    requires WorkedOn(db, after, t) && t in db.tasks && !db.tasks[t].done
    ensures OnlyPieces(after, later)
  {
    forall o, k | o in after.scan && !Settled(after, o) && k in Residues(later, o) ensures PieceKeys.PieceOf(o, k) {
      FewerResidues(store, later, o);
      if Settled(db, o) {
        StillSettled(db, after, t, o);
      }
    }
  }

  /** What an unfinished task has to deal with is not settled. */
  lemma ActiveIsUnsettled(db: Db, t: TaskId, o: Oid)
    requires Inv(db) && Active(db, t, o) && t in db.tasks && !db.tasks[t].done
    ensures !Settled(db, o) && o in db.scan
  {
    ActiveIsNewest(db, t, o);
    assert (t, o) in db.members;
  }

  // ---------------------------------------------------------------- opening, releasing

  lemma RecoverWorksOn(db: Db, t: TaskId)
    ensures WorkedOn(db, Recover(db), t) && Recover(db).members == db.members && Recover(db).progress == db.progress
    ensures forall u :: u in db.tasks ==> Recover(db).tasks[u] == db.tasks[u].(purged := Recover(db).tasks[u].purged)
  {
  }

  /** The beginning of every command. */
  lemma Opens(r: Run) returns (more: Run)
    requires Happened(r) && Last(r).session == Idle && Sealed(Last(r).db)
    ensures Continues(r, more) && Last(more).db == Recover(Last(r).db) && Last(more).store == Last(r).store
    ensures System.Ready(Last(more)) && Inv(Last(more).db)
  {
    var s := Last(r);
    more := Step(r, Open(s.db.meta.value.binding), Sys(Recover(s.db), Opened(s.db.meta.value.binding), s.store));
  }

  function HeldIds(db: Db): set<TaskId> {
    set t | t in db.tasks && Held(db.tasks[t])
  }

  lemma ResumeHappens(s: Sys, t: TaskId, reason: string, after: Db)
    requires System.Ready(s) && 0 < t && t in s.db.tasks && Resume(s.db, t, reason) == Ok(after)
    ensures Apply(s, Tasks(ResumeTask(t, reason))) == Some(Sys(after, Idle, s.store))
  {
  }

  /** What releasing holds leaves alone. */
  ghost predicate SameWork(db: Db, after: Db) {
    && after.meta == db.meta && after.scan == db.scan && after.members == db.members && after.progress == db.progress
    && after.tasks.Keys == db.tasks.Keys
    && (forall u :: u in db.tasks ==> after.tasks[u].generation == db.tasks[u].generation)
  }

  predicate Acceptable(reason: string) {
    !Blank(reason) && |reason| <= REASON_LIMIT
  }

  lemma Reason() returns (reason: string)
    ensures Acceptable(reason)
  {
    reason := "x";
    assert !IsSpace(reason[0]);
  }

  lemma ReleaseOne(r: Run, t: TaskId) returns (more: Run)
    requires Happened(r) && Last(r).session == Idle && Sealed(Last(r).db) && t in HeldIds(Last(r).db)
    ensures Continues(r, more) && Last(more).session == Idle && Last(more).store == Last(r).store
    ensures SameWork(Last(r).db, Last(more).db) && HeldIds(Last(more).db) == HeldIds(Last(r).db) - {t}
  {
    var db := Last(r).db;
    Numbered(r, |r.events|, t);
    RecoverWorksOn(db, t);
    var started := Opens(r);
    var ready := Recover(db);
    var reason := Reason();
    ResumeExact(ready, t, reason);
    var after := Resume(ready, t, reason).value;
    ResumeHappens(Last(started), t, reason, after);
    more := Step(started, Tasks(ResumeTask(t, reason)), Sys(after, Idle, Last(r).store));
    Chain(r, started, more);
  }

  lemma {:induction false} ReleaseAll(r: Run) returns (more: Run)
    requires Happened(r) && Last(r).session == Idle && Sealed(Last(r).db)
    ensures Continues(r, more) && Last(more).session == Idle && Last(more).store == Last(r).store
    ensures SameWork(Last(r).db, Last(more).db) && NoHold(Last(more).db)
    decreases |HeldIds(Last(r).db)|
  {
    if HeldIds(Last(r).db) == {} {
      assert forall t :: t in Last(r).db.tasks && Held(Last(r).db.tasks[t]) ==> t in HeldIds(Last(r).db);
      more := r;
    } else {
      var t :| t in HeldIds(Last(r).db);
      var next := ReleaseOne(r, t);
      more := ReleaseAll(next);
      Chain(r, next, more);
    }
  }

  // ---------------------------------------------------------------- a deletion pass

  /** Between two commands, with no hold, an unfinished task to work on, and nothing in its way. */
  ghost predicate Workable(s: Sys, t: TaskId) {
    && s.session == Idle && Sealed(s.db) && NoHold(s.db)
    && t in s.db.tasks && !s.db.tasks[t].done
    && 0 !in s.db.scan && OnlyPieces(s.db, s.store)
  }

  lemma ResolvesToItself(db: Db, t: TaskId)
    requires Inv(db) && NoHold(db) && t in db.tasks && !db.tasks[t].done && 0 < t
    ensures ResolvePurge(db, t) == Ok(t)
  {
    ResolvePurgeExact(db, t, t);
    if !db.tasks[t].purged {
      OneOpenTask(db);
      assert t in OpenTasks(db);
      OnlyElement(OpenTasks(db), t);
    }
  }

  lemma StartPurgeHappens(s: Sys, t: TaskId, after: Db)
    requires System.Ready(s) && ResolvePurge(s.db, t) == Ok(t) && BeginPurge(s.db, t) == Ok(after)
    ensures Apply(s, Tasks(StartPurge(t))) == Some(Sys(after, Purging(t, false, map[]), s.store))
  {
  }

  lemma BeginPurgeWorksOn(db: Db, t: TaskId, after: Db)
    requires BeginPurge(db, t) == Ok(after)
    ensures WorkedOn(db, after, t) && after.members == db.members && !after.tasks[t].done
  {
  }

  /** Nothing of the task counts as passed. */
  ghost predicate Unpassed(db: Db, t: TaskId) {
    forall o :: Active(db, t, o) ==> !Passed(db, (t, o))
  }

  lemma BeginsPurge(r: Run, t: TaskId) returns (more: Run)
    requires Happened(r) && Workable(Last(r), t)
    ensures Continues(r, more) && Last(more).session == Purging(t, false, map[]) && Last(more).store == Last(r).store
    ensures WorkedOn(Last(r).db, Last(more).db, t) && Unpassed(Last(more).db, t) && t in Last(more).db.tasks
    ensures !Last(more).db.tasks[t].done
    ensures forall o :: Active(Last(r).db, t, o) && Last(r).db.members[(t, o)].check == Residue
                        ==> Claimable(Last(more).db, t, o)
  {
    var db := Last(r).db;
    Numbered(r, |r.events|, t);
    RecoverWorksOn(db, t);
    var started := Opens(r);
    var ready := Recover(db);
    ResolvesToItself(ready, t);
    BeginPurgeExact(ready, t);
    var after := BeginPurge(ready, t).value;
    StartPurgeHappens(Last(started), t, after);
    more := Step(started, Tasks(StartPurge(t)), Sys(after, Purging(t, false, map[]), Last(r).store));
    Chain(r, started, more);
    BeginPurgeWorksOn(ready, t, after);
    WorkedOnTwice(db, ready, after, t);
    forall o ensures Active(after, t, o) ==> !Passed(after, (t, o)) {
      BeginPurgeMeans(ready, t, o);
    }
    forall o | Active(db, t, o) && db.members[(t, o)].check == Residue ensures Claimable(after, t, o) {
      BeginPurgeMeans(ready, t, o);
    }
  }

  lemma AdmitHappens(s: Sys, t: TaskId, o: Oid)
    requires s.session == Purging(t, false, map[]) && 0 < o && Claimable(s.db, t, o)
    ensures Apply(s, Purger(Admit(o))) == Some(s.(session := Purging(t, false, map[o := Amount(0, 0)])))
  {
    assert map[][o := Amount(0, 0)] == map[o := Amount(0, 0)];
  }

  lemma RemoveIsAllowed(s: Sys, o: Oid, gone: set<string>) returns (next: Sys)
    requires s.session.Purging? && o in s.session.work && gone <= s.store.Keys
    requires forall k :: k in gone ==> PieceKeys.PieceOf(o, k)
    ensures Apply(s, Purger(Remove(o, gone, {}))) == Some(next)
    ensures next.store == s.store - gone && next.db == s.db
    ensures next.session.Purging? && next.session == s.session.(work := next.session.work)
    ensures next.session.work.Keys == s.session.work.Keys
  {
    assert gone + {} == gone;
    forall k | k in gone + {} ensures PieceKeys.PieceOf(o, k) {
    }
    next := PurgeStep(s, Remove(o, gone, {})).value;
  }

  lemma OnlyEntry(work: map<Oid, Amount>, o: Oid) returns (a: Amount)
    requires work.Keys == {o}
    ensures work == map[o := a]
  {
    a := work[o];
  }

  lemma FinishHappens(s: Sys, t: TaskId, o: Oid, a: Amount, after: Db)
    requires s.session == Purging(t, false, map[o := a]) && RecordDone(s.db, t, o, a.keys, a.bytes) == Ok(after)
    ensures Apply(s, Purger(Finish(o))) == Some(Sys(after, Purging(t, false, map[]), s.store))
  {
    assert map[o := a] - {o} == map[];
  }

  lemma RecordDoneWorksOn(db: Db, t: TaskId, o: Oid, keys: nat, bytes: nat, after: Db)
    requires RecordDone(db, t, o, keys, bytes) == Ok(after) && t in db.tasks && 1 <= db.tasks[t].generation
    ensures WorkedOn(db, after, t) && after.tasks == db.tasks
    ensures Unpassed(db, t) ==> Unpassed(after, t)
    ensures ClaimableOids(after, t) == ClaimableOids(db, t) - {o}
  {
    RecordDoneExact(db, t, o, keys, bytes);
    forall p ensures p in ClaimableOids(after, t) <==> p in ClaimableOids(db, t) && p != o {
      ClaimableIsListed(db, t, p);
      ClaimableIsListed(after, t, p);
    }
  }

  lemma ClaimableIsListed(db: Db, t: TaskId, o: Oid)
    ensures o in ClaimableOids(db, t) <==> Claimable(db, t, o)
  {
    assert Claimable(db, t, o) ==> (t, o) in db.members;
  }

  lemma NothingLeft(store: map<string, nat>, o: Oid)
    ensures Residues(store - Residues(store, o), o) == {}
  {
  }

  /** One object from its admission to its result. */
  lemma ClearOne(r: Run, t: TaskId, o: Oid) returns (more: Run)
    requires Happened(r) && Last(r).session == Purging(t, false, map[]) && Claimable(Last(r).db, t, o) && 0 < o
    requires forall k :: k in Residues(Last(r).store, o) ==> PieceKeys.PieceOf(o, k)
    ensures Continues(r, more) && Last(more).session == Purging(t, false, map[])
    ensures Last(more).store == Last(r).store - Residues(Last(r).store, o)
    ensures t in Last(r).db.tasks && WorkedOn(Last(r).db, Last(more).db, t) && Last(more).db.tasks == Last(r).db.tasks
    ensures Unpassed(Last(r).db, t) ==> Unpassed(Last(more).db, t)
    ensures ClaimableOids(Last(more).db, t) == ClaimableOids(Last(r).db, t) - {o}
  {
    var s := Last(r);
    EndIsGood(r);
    AdmitHappens(s, t, o);
    var admitted := Step(r, Purger(Admit(o)), s.(session := Purging(t, false, map[o := Amount(0, 0)])));
    var gone := Residues(s.store, o);
    var next := RemoveIsAllowed(Last(admitted), o, gone);
    var removed := Step(admitted, Purger(Remove(o, gone, {})), next);
    var a := OnlyEntry(next.session.work, o);
    var after := RecordDone(s.db, t, o, a.keys, a.bytes).value;
    FinishHappens(Last(removed), t, o, a, after);
    more := Step(removed, Purger(Finish(o)), Sys(after, Purging(t, false, map[]), s.store - gone));
    Chain(r, admitted, removed);
    Chain(r, removed, more);
    RecordDoneWorksOn(s.db, t, o, a.keys, a.bytes, after);
  }

  lemma ClearNext(r: Run, t: TaskId, o: Oid) returns (more: Run)
    requires Happened(r) && Last(r).session == Purging(t, false, map[]) && o in ClaimableOids(Last(r).db, t)
    requires 0 !in Last(r).db.scan && OnlyPieces(Last(r).db, Last(r).store)
    ensures Continues(r, more) && Last(more).session == Purging(t, false, map[])
    ensures Last(more).store.Keys <= Last(r).store.Keys && Residues(Last(more).store, o) == {}
    ensures t in Last(r).db.tasks && WorkedOn(Last(r).db, Last(more).db, t) && Last(more).db.tasks == Last(r).db.tasks
    ensures Unpassed(Last(r).db, t) ==> Unpassed(Last(more).db, t)
    ensures ClaimableOids(Last(more).db, t) == ClaimableOids(Last(r).db, t) - {o}
    ensures OnlyPieces(Last(more).db, Last(more).store)
  {
    EndIsGood(r);
    ClaimableIsListed(Last(r).db, t, o);
    ActiveIsUnsettled(Last(r).db, t, o);
    more := ClearOne(r, t, o);
    NothingLeft(Last(r).store, o);
    StillOnlyPieces(Last(r).db, Last(r).store, Last(more).db, Last(more).store, t);
  }

  lemma {:induction false} ClearAll(r: Run, t: TaskId) returns (more: Run)
    requires Happened(r) && Last(r).session == Purging(t, false, map[]) && Unpassed(Last(r).db, t)
    requires 0 !in Last(r).db.scan && OnlyPieces(Last(r).db, Last(r).store)
    ensures Continues(r, more) && Last(more).session == Purging(t, false, map[])
    ensures t in Last(r).db.tasks && WorkedOn(Last(r).db, Last(more).db, t) && Last(more).db.tasks == Last(r).db.tasks
    ensures Unpassed(Last(more).db, t) && ClaimableOids(Last(more).db, t) == {}
    ensures Last(more).store.Keys <= Last(r).store.Keys
    ensures forall o :: o in ClaimableOids(Last(r).db, t) ==> Residues(Last(more).store, o) == {}
    decreases |ClaimableOids(Last(r).db, t)|
  {
    EndIsGood(r);
    var due := ClaimableOids(Last(r).db, t);
    if due == {} {
      more := r;
    } else {
      var o :| o in due;
      var next := ClearNext(r, t, o);
      more := ClearAll(next, t);
      Chain(r, next, more);
      WorkedOnTwice(Last(r).db, Last(next).db, Last(more).db, t);
      FewerResidues(Last(next).store, Last(more).store, o);
    }
  }

  lemma NothingClaimable(db: Db, t: TaskId)
    requires Frozen(db) && ClaimableOids(db, t) == {}
    ensures AllProcessed(db, t)
  {
    forall k | k in db.members && k.0 == t && !db.members[k].deferred ensures Processed(db, k.1) {
      ClaimableIsListed(db, t, k.1);
      assert k == (t, k.1);
    }
  }

  lemma FinishPurgeHappens(s: Sys, t: TaskId, after: Db)
    requires s.session == Purging(t, false, map[]) && t in s.db.tasks
    requires CompletePurge(s.db, t, s.db.tasks[t].objectCount) == Ok(after)
    ensures Apply(s, Purger(FinishPurge)) == Some(Sys(after, Idle, s.store))
  {
  }

  lemma CompletePurgeWorksOn(db: Db, t: TaskId, count: nat, after: Db)
    requires CompletePurge(db, t, count) == Ok(after)
    ensures WorkedOn(db, after, t) && !after.tasks[t].done && after.members == db.members
    ensures AllProcessed(db, t) ==> AllProcessed(after, t)
    ensures Unpassed(db, t) ==> Unpassed(after, t)
  {
  }

  lemma EndsPurge(r: Run, t: TaskId) returns (more: Run)
    requires Happened(r) && Last(r).session == Purging(t, false, map[]) && ClaimableOids(Last(r).db, t) == {}
    requires Unpassed(Last(r).db, t)
    ensures Continues(r, more) && Last(more).session == Idle && Last(more).store == Last(r).store
    ensures WorkedOn(Last(r).db, Last(more).db, t) && t in Last(more).db.tasks && !Last(more).db.tasks[t].done
    ensures Unpassed(Last(more).db, t) && AllProcessed(Last(more).db, t)
  {
    var s := Last(r);
    EndIsGood(r);
    NothingClaimable(s.db, t);
    CompletePurgeExact(s.db, t);
    var count := s.db.tasks[t].objectCount;
    var after := CompletePurge(s.db, t, count).value;
    FinishPurgeHappens(s, t, after);
    more := Step(r, Purger(FinishPurge), Sys(after, Idle, s.store));
    CompletePurgeWorksOn(s.db, t, count, after);
  }

  /** What a task looks like between a deletion pass that came to its end and the verification after it. */
  ghost predicate Deleted(s: Sys, t: TaskId) {
    Workable(s, t) && AllProcessed(s.db, t) && Unpassed(s.db, t)
  }

  lemma StillWorkable(s: Sys, next: Sys, t: TaskId)
    requires Workable(s, t) && WorkedOn(s.db, next.db, t) && next.store.Keys <= s.store.Keys
    requires next.session == Idle && t in next.db.tasks && !next.db.tasks[t].done
    ensures Workable(next, t)
  {
    WorkedOnKeeps(s.db, next.db, t);
    StillOnlyPieces(s.db, s.store, next.db, next.store, t);
  }

  /** A whole deletion pass clears every object that was found with residue. */
  lemma PurgePass(r: Run, t: TaskId) returns (more: Run)
    requires Happened(r) && Workable(Last(r), t)
    ensures Continues(r, more) && Deleted(Last(more), t)
    ensures WorkedOn(Last(r).db, Last(more).db, t) && Last(more).store.Keys <= Last(r).store.Keys
    ensures forall o :: Active(Last(r).db, t, o) && Last(r).db.members[(t, o)].check == Residue
                        ==> Residues(Last(more).store, o) == {}
  {
    var begun := BeginsPurge(r, t);
    StillOnlyPieces(Last(r).db, Last(r).store, Last(begun).db, Last(begun).store, t);
    var cleared := ClearAll(begun, t);
    more := EndsPurge(cleared, t);
    Chain(r, begun, cleared);
    Chain(r, cleared, more);
    WorkedOnTwice(Last(r).db, Last(begun).db, Last(cleared).db, t);
    WorkedOnTwice(Last(r).db, Last(cleared).db, Last(more).db, t);
    StillWorkable(Last(r), Last(more), t);
    forall o | Active(Last(r).db, t, o) && Last(r).db.members[(t, o)].check == Residue
      ensures Residues(Last(more).store, o) == {}
    {
      ClaimableIsListed(Last(begun).db, t, o);
    }
  }

  // ---------------------------------------------------------------- a verification

  lemma StartVerifyHappens(s: Sys, t: TaskId, after: Db)
    requires System.Ready(s) && 0 < t && t in s.db.tasks && BeginVerify(s.db, t, false) == Ok(after)
    requires t in after.tasks && !after.tasks[t].done
    ensures Apply(s, Tasks(StartVerify(t, false)))
            == Some(Sys(after, Verifying(t, after.tasks[t].generation, after.tasks[t].objectCount, NoObject), s.store))
  {
  }

  lemma BeginVerifyWorksOn(db: Db, t: TaskId, after: Db)
    requires BeginVerify(db, t, false) == Ok(after) && t in db.tasks && !db.tasks[t].done
    ensures WorkedOn(db, after, t) && after.members == db.members && !after.tasks[t].done
    ensures Unpassed(db, t) ==> Unpassed(after, t)
  {
  }

  lemma BeginsVerify(r: Run, t: TaskId) returns (more: Run)
    requires Happened(r) && Deleted(Last(r), t)
    ensures Continues(r, more) && Last(more).store == Last(r).store && t in Last(more).db.tasks
    ensures var row := Last(more).db.tasks[t];
            Last(more).session == Verifying(t, row.generation, row.objectCount, NoObject)
    ensures WorkedOn(Last(r).db, Last(more).db, t) && Unpassed(Last(more).db, t)
  {
    var db := Last(r).db;
    Numbered(r, |r.events|, t);
    RecoverWorksOn(db, t);
    var started := Opens(r);
    var ready := Recover(db);
    BeginVerifyExact(ready, t, false);
    var after := BeginVerify(ready, t, false).value;
    BeginVerifyWorksOn(ready, t, after);
    StartVerifyHappens(Last(started), t, after);
    var row := after.tasks[t];
    more := Step(started, Tasks(StartVerify(t, false)),
                 Sys(after, Verifying(t, row.generation, row.objectCount, NoObject), Last(r).store));
    Chain(r, started, more);
    WorkedOnTwice(db, ready, after, t);
  }

  function Truth(store: map<string, nat>, o: Oid, i: nat): Reply
    requires i < 2
  {
    if Under(store, o, i) == {} then System.Empty else NonEmpty
  }

  function Finding(store: map<string, nat>, o: Oid): Check {
    if Residues(store, o) == {} then Pass else Residue
  }

  lemma TrueVerdict(store: map<string, nat>, o: Oid)
    ensures Verdict([Truth(store, o, 0), Truth(store, o, 1)]) == Finding(store, o)
    ensures Truthful(store, o, 0, Truth(store, o, 0)) && Truthful(store, o, 1, Truth(store, o, 1))
  {
    var a, b := Truth(store, o, 0), Truth(store, o, 1);
    assert [a, b][0] == a && [a, b][1] == b;
  }

  function Examined(db: Db, t: TaskId, g: nat, o: Oid, check: Check): Db
    requires (t, o) in db.members
  {
    db.(members := db.members[(t, o) := db.members[(t, o)].(generation := g, check := check)])
  }

  lemma ExamineOne(r: Run, o: Oid) returns (more: Run)
    requires Happened(r) && Last(r).session.Verifying? && Last(r).session.looking == NoObject && 0 < o
    requires Unverified(Last(r).db, Last(r).session.task, Last(r).session.generation, o)
    ensures Continues(r, more)
    ensures var s := Last(r); var Verifying(t, g, _, _) := s.session;
            Last(more) == s.(db := Examined(s.db, t, g, o, Finding(s.store, o)))
  {
    var s := Last(r);
    var Verifying(t, g, count, _) := s.session;
    var a, b := Truth(s.store, o, 0), Truth(s.store, o, 1);
    TrueVerdict(s.store, o);
    CommandSteps.LooksHappen(s, o, a, b);
    var once := Step(r, Verifier(Look(o, a)), s.(session := Verifying(t, g, count, Object(o, [a]))));
    var twice := Step(once, Verifier(Look(o, b)), s.(session := Verifying(t, g, count, Object(o, [a, b]))));
    var after := Examined(s.db, t, g, o, Finding(s.store, o));
    CommandSteps.JudgeHappens(Last(twice), o, a, b, after);
    more := Step(twice, Verifier(Judge(o)), s.(db := after));
    Chain(r, once, twice);
    Chain(r, twice, more);
  }

  /** The members in `todo` have just been examined; the others are as before. */
  ghost predicate Checked(db: Db, after: Db, t: TaskId, g: nat, todo: set<Oid>, store: map<string, nat>) {
    && after == db.(members := after.members) && after.members.Keys == db.members.Keys
    && (forall k :: k in db.members ==> after.members[k].deferred == db.members[k].deferred)
    && (forall o :: o in todo ==> (t, o) in db.members && after.members[(t, o)].generation == g
                                  && after.members[(t, o)].check == Finding(store, o))
    && (forall k :: k in db.members && !(k.0 == t && k.1 in todo) ==> after.members[k] == db.members[k])
  }

  lemma CheckedMore(db: Db, mid: Db, after: Db, t: TaskId, g: nat, todo: set<Oid>, o: Oid, store: map<string, nat>)
    requires o in todo && (t, o) in db.members && mid == Examined(db, t, g, o, Finding(store, o))
    requires Checked(mid, after, t, g, todo - {o}, store)
    ensures Checked(db, after, t, g, todo, store)
  {
  }

  lemma StillToCheck(db: Db, t: TaskId, g: nat, o: Oid, check: Check, p: Oid)
    requires (t, o) in db.members && Unverified(db, t, g, p) && p != o
    ensures Unverified(Examined(db, t, g, o, check), t, g, p)
  {
  }

  lemma {:induction false} ExamineAll(r: Run, todo: set<Oid>) returns (more: Run)
    requires Happened(r) && Last(r).session.Verifying? && Last(r).session.looking == NoObject && 0 !in todo
    requires forall o :: o in todo ==> Unverified(Last(r).db, Last(r).session.task, Last(r).session.generation, o)
    ensures Continues(r, more) && Last(more).session == Last(r).session && Last(more).store == Last(r).store
    ensures Checked(Last(r).db, Last(more).db, Last(r).session.task, Last(r).session.generation, todo, Last(r).store)
    decreases |todo|
  {
    var Verifying(t, g, _, _) := Last(r).session;
    if todo == {} {
      more := r;
    } else {
      var o :| o in todo;
      var next := ExamineOne(r, o);
      forall p | p in todo - {o} ensures Unverified(Last(next).db, t, g, p) {
        StillToCheck(Last(r).db, t, g, o, Finding(Last(r).store, o), p);
      }
      more := ExamineAll(next, todo - {o});
      Chain(r, next, more);
      CheckedMore(Last(r).db, Last(next).db, Last(more).db, t, g, todo, o, Last(r).store);
    }
  }

  /** Every active member has been examined, and its check tells what is stored of it. */
  ghost predicate Found(s: Sys, t: TaskId, store: map<string, nat>) {
    && t in s.db.tasks
    && forall o :: Active(s.db, t, o) ==>
         s.db.members[(t, o)].check == Finding(store, o)
         && s.db.members[(t, o)].generation == s.db.tasks[t].generation
  }

  lemma ActiveAreListed(db: Db, t: TaskId)
    requires t in db.tasks && Unpassed(db, t)
    ensures forall o :: Active(db, t, o) <==> o in UnverifiedOids(db, t, db.tasks[t].generation)
    ensures forall o :: o in UnverifiedOids(db, t, db.tasks[t].generation) ==>
                          Unverified(db, t, db.tasks[t].generation, o)
  {
    forall o | Active(db, t, o) ensures o in UnverifiedOids(db, t, db.tasks[t].generation) {
      assert (t, o) in db.members && !Passed(db, (t, o));
    }
  }

  lemma CheckedIsFound(s: Sys, next: Sys, t: TaskId, todo: set<Oid>)
    requires t in s.db.tasks && Checked(s.db, next.db, t, s.db.tasks[t].generation, todo, s.store)
    requires forall o :: Active(s.db, t, o) ==> o in todo
    ensures Found(next, t, s.store) && WorkedOn(s.db, next.db, t)
  {
  }

  /** A verification up to its last transaction. */
  lemma VerifyAll(r: Run, t: TaskId) returns (more: Run)
    requires Happened(r) && Deleted(Last(r), t)
    ensures Continues(r, more) && Last(more).store == Last(r).store && t in Last(more).db.tasks
    ensures var row := Last(more).db.tasks[t];
            Last(more).session == Verifying(t, row.generation, row.objectCount, NoObject)
    ensures WorkedOn(Last(r).db, Last(more).db, t) && Found(Last(more), t, Last(r).store)
  {
    var begun := BeginsVerify(r, t);
    var s := Last(begun);
    EndIsGood(begun);
    ActiveAreListed(s.db, t);
    var todo := UnverifiedOids(s.db, t, s.db.tasks[t].generation);
    assert 0 !in todo by {
      assert Active(s.db, t, 0) ==> (t, 0) in s.db.members;
    }
    more := ExamineAll(begun, todo);
    Chain(r, begun, more);
    CheckedIsFound(s, Last(more), t, todo);
    WorkedOnTwice(Last(r).db, s.db, Last(more).db, t);
  }

  lemma FinishVerifyHappens(s: Sys, t: TaskId, after: Db)
    requires s.session.Verifying? && s.session.looking == NoObject && s.session.task == t
    requires CompleteVerify(s.db, t, s.session.generation, s.session.count) == Ok(after)
    ensures Apply(s, Verifier(FinishVerify)) == Some(Sys(after, Idle, s.store))
  {
  }

  lemma CompleteVerifyWorksOn(db: Db, t: TaskId, generation: nat, count: nat, after: Db)
    requires CompleteVerify(db, t, generation, count) == Ok(after) && t in db.tasks && !db.tasks[t].done
    ensures WorkedOn(db, after, t) && after.tasks[t].done
  {
  }

  lemma FoundEmptyIsPassed(s: Sys, t: TaskId, store: map<string, nat>)
    requires Found(s, t, store) && forall o :: Active(s.db, t, o) ==> Residues(store, o) == {}
    ensures AllPassed(s.db, t)
  {
    forall k | k in s.db.members && k.0 == t && !s.db.members[k].deferred ensures Passed(s.db, k) {
      assert k == (t, k.1) && Active(s.db, t, k.1);
    }
  }

  /** A verification that finds nothing finishes its task. */
  lemma VerifyPass(r: Run, t: TaskId) returns (more: Run)
    requires Happened(r) && Deleted(Last(r), t)
    requires forall o :: Active(Last(r).db, t, o) ==> Residues(Last(r).store, o) == {}
    ensures Continues(r, more) && Last(more).session == Idle && Last(more).store == Last(r).store
    ensures WorkedOn(Last(r).db, Last(more).db, t) && Last(more).db.tasks[t].done
  {
    var checked := VerifyAll(r, t);
    var s := Last(checked);
    EndIsGood(checked);
    WorkedOnKeeps(Last(r).db, s.db, t);
    FoundEmptyIsPassed(s, t, s.store);
    CompleteVerifyExact(s.db, t);
    var after := CompleteVerify(s.db, t, s.session.generation, s.session.count).value;
    FinishVerifyHappens(s, t, after);
    more := Step(checked, Verifier(FinishVerify), Sys(after, Idle, s.store));
    Chain(r, checked, more);
    CompleteVerifyWorksOn(s.db, t, s.session.generation, s.session.count, after);
    WorkedOnTwice(Last(r).db, s.db, after, t);
  }

  // ---------------------------------------------------------------- finishing a task

  /** A verification that is broken off before its last transaction. */
  lemma VerifyHalf(r: Run, t: TaskId) returns (more: Run)
    requires Happened(r) && Deleted(Last(r), t)
    ensures Continues(r, more) && Workable(Last(more), t) && Last(more).store == Last(r).store
    ensures WorkedOn(Last(r).db, Last(more).db, t) && Found(Last(more), t, Last(r).store)
  {
    var checked := VerifyAll(r, t);
    var s := Last(checked);
    EndIsGood(checked);
    more := Step(checked, Exit, s.(session := Idle));
    Chain(r, checked, more);
    StillWorkable(Last(r), Last(more), t);
  }

  lemma AllCleaned(s: Sys, next: Sys, t: TaskId)
    requires Found(s, t, s.store) && next.store.Keys <= s.store.Keys && WorkedOn(s.db, next.db, t)
    requires forall o :: Active(s.db, t, o) && s.db.members[(t, o)].check == Residue ==> Residues(next.store, o) == {}
    ensures forall o :: Active(next.db, t, o) ==> Residues(next.store, o) == {}
  {
    WorkedOnKeeps(s.db, next.db, t);
    forall o | Active(next.db, t, o) ensures Residues(next.store, o) == {} {
      FewerResidues(s.store, next.store, o);
    }
  }

  /**
   An unfinished task: a deletion pass, a verification that finds what is still there, a
   deletion pass that removes it, and a verification that finds nothing.
   */
  lemma FinishTask(r: Run, t: TaskId) returns (more: Run)
    requires Happened(r) && Workable(Last(r), t)
    ensures Continues(r, more) && Last(more).session == Idle && Last(more).store.Keys <= Last(r).store.Keys
    ensures WorkedOn(Last(r).db, Last(more).db, t) && Last(more).db.tasks[t].done
  {
    var first := PurgePass(r, t);
    var found := VerifyHalf(first, t);
    var second := PurgePass(found, t);
    AllCleaned(Last(found), Last(second), t);
    more := VerifyPass(second, t);
    Chain(r, first, found);
    Chain(r, found, second);
    Chain(r, second, more);
    WorkedOnTwice(Last(r).db, Last(first).db, Last(found).db, t);
    WorkedOnTwice(Last(r).db, Last(found).db, Last(second).db, t);
    WorkedOnTwice(Last(r).db, Last(second).db, Last(more).db, t);
  }
}
