/**
 Object 0. Every cursor of the program starts at 0 and compares with `>`, so an object of that
 number is allocated like any other but is never purged and never checked. In no history does
 the task that holds it reach a milestone; setting the object aside is the only way out.
 */
module ObjectZero {
  import opened Wrappers
  import opened Capacity
  import opened Ledger
  import opened LedgerInvariants
  import opened LedgerTheorems
  import opened System
  import opened SystemInvariants

  /** Object 0 has no result, and a task it is active in has no milestone. */
  ghost predicate Waits(db: Db) {
    && 0 !in db.progress
    && forall t :: t in db.tasks && Active(db, t, 0) ==> !db.tasks[t].purged && !db.tasks[t].done
  }

  lemma NotProcessed(db: Db, t: TaskId)
    requires Waits(db) && Active(db, t, 0)
    ensures !AllProcessed(db, t)
  {
    assert (t, 0) in db.members && !Processed(db, 0);
  }

  lemma RowWaits(db: Db, t: TaskId, next: Task)
    requires Waits(db) && t in db.tasks && (Active(db, t, 0) ==> !next.purged && !next.done)
    ensures Waits(WithTask(db, t, next))
  {
  }

  lemma RecoverWaits(db: Db)
    requires Waits(db)
    ensures Waits(Recover(db))
  {
    forall t | t in db.tasks && Active(db, t, 0) ensures !AllProcessed(db, t) {
      NotProcessed(db, t);
    }
  }

  lemma AllocateWaits(db: Db, target: nat, retry: bool, id: TaskId, selected: seq<ScanRow>)
    requires Waits(db)
    ensures Waits(Allocate(db, target, retry, id, selected))
  {
    AllocatedRows(db, target, retry, id, selected);
  }

  lemma CreateWaits(db: Db, target: nat, max: int, retry: bool, id: TaskId)
    requires Frozen(db) && Waits(db)
    ensures var r := Create(db, target, max, retry, id); r.Ok? && r.value.Fresh? ==> Waits(r.value.db)
  {
    CreateFacts(db, target, max, retry, id);
    var r := Create(db, target, max, retry, id);
    if r.Ok? && r.value.Fresh? {
      AllocateWaits(db, target, retry, id, r.value.selected);
    }
  }

  lemma CompletePurgeWaits(db: Db, t: TaskId, count: nat)
    requires Waits(db) && CompletePurge(db, t, count).Ok?
    ensures Waits(CompletePurge(db, t, count).value)
  {
    CountsProcessed(db, t);
    if Active(db, t, 0) {
      NotProcessed(db, t);
    }
    RowWaits(db, t, db.tasks[t].(purged := true, phase := Purge));
  }

  lemma BeginVerifyWaits(db: Db, t: TaskId, restart: bool)
    requires Waits(db) && BeginVerify(db, t, restart).Ok?
    ensures Waits(BeginVerify(db, t, restart).value)
  {
    var after := BeginVerify(db, t, restart).value;
    CountsProcessed(db, t);
    if Active(db, t, 0) {
      NotProcessed(db, t);
    }
    if after != db {
      RowWaits(db, t, after.tasks[t]);
    }
  }

  lemma CompleteVerifyWaits(db: Db, t: TaskId, generation: nat, count: nat)
    requires Waits(db) && CompleteVerify(db, t, generation, count).Ok?
    ensures Waits(CompleteVerify(db, t, generation, count).value)
  {
    var after := CompleteVerify(db, t, generation, count).value;
    CountsProcessed(db, t);
    if Active(db, t, 0) {
      NotProcessed(db, t);
    }
    if after != db {
      RowWaits(db, t, db.tasks[t].(done := true));
    }
  }

  lemma BeginPurgeWaits(db: Db, t: TaskId)
    requires Waits(db) && BeginPurge(db, t).Ok?
    ensures Waits(BeginPurge(db, t).value)
  {
  }

  lemma HoldWaits(db: Db, t: TaskId, oid: Option<Oid>, reason: string)
    requires Waits(db)
    ensures Waits(Hold(db, t, oid, reason))
  {
  }

  lemma DeferWaits(db: Db, t: TaskId, o: Oid, reason: string)
    requires Waits(db) && Defer(db, t, o, reason).Ok?
    ensures Waits(Defer(db, t, o, reason).value)
  {
    var after := WithDeferral(db, t, o, reason);
    assert forall u :: Active(after, u, 0) ==> Active(db, u, 0);
  }

  lemma ResumeWaits(db: Db, t: TaskId, reason: string)
    requires Waits(db) && Resume(db, t, reason).Ok?
    ensures Waits(Resume(db, t, reason).value)
  {
  }

  lemma RecordWaits(db: Db, t: TaskId, o: Oid, keys: nat, bytes: nat)
    requires Waits(db) && 0 < o
    ensures RecordDone(db, t, o, keys, bytes).Ok? ==> Waits(RecordDone(db, t, o, keys, bytes).value)
    ensures RecordFail(db, t, o, keys, bytes).Ok? ==> Waits(RecordFail(db, t, o, keys, bytes).value)
  {
  }

  lemma RecordVerifyWaits(db: Db, t: TaskId, generation: nat, o: Oid, check: Check)
    requires Waits(db) && RecordVerify(db, t, generation, o, check).Ok?
    ensures Waits(RecordVerify(db, t, generation, o, check).value)
  {
  }

  // ---------------------------------------------------------------- every event

  lemma ScanWaits(s: Sys, e: ScanEvent, next: Sys)
    requires Waits(s.db) && ScanStep(s, e) == Some(next)
    ensures Waits(next.db)
  {
    assert next.db.progress == s.db.progress && next.db.tasks == s.db.tasks && next.db.members == s.db.members;
  }

  lemma VerifyStartWaits(s: Sys, id: TaskId, restart: bool, next: Sys)
    requires Waits(s.db) && VerifyStart(s, id, restart) == Some(next)
    ensures Waits(next.db)
  {
    BeginVerifyWaits(s.db, ResolveVerify(s.db, id).value, restart);
  }

  lemma TaskWaits(s: Sys, e: TaskEvent, next: Sys)
    requires Frozen(s.db) && Waits(s.db) && TaskStep(s, e) == Some(next)
    ensures Waits(next.db)
  {
    match e
    case CreateTask(target, max, retry, id) => CreateWaits(s.db, target, max, retry, id);
    case DeferOid(id, o, reason) => DeferWaits(s.db, ResolveAdmin(s.db, id).value, o, reason);
    case FinishDefer => CompletePurgeWaits(s.db, s.session.task, s.db.tasks[s.session.task].objectCount);
    case ResumeTask(id, reason) => ResumeWaits(s.db, ResolveAdmin(s.db, id).value, reason);
    case HoldTask(id, reason) => HoldWaits(s.db, ResolvePurge(s.db, id).value, None, reason);
    case StartPurge(id) => BeginPurgeWaits(s.db, ResolvePurge(s.db, id).value);
    case StartVerify(id, restart) => VerifyStartWaits(s, id, restart, next);
  }

  lemma PurgeWaits(s: Sys, e: PurgeEvent, next: Sys)
    requires SessionOk(s) && Waits(s.db) && PurgeStep(s, e) == Some(next)
    ensures Waits(next.db)
  {
    var Purging(t, halted, work) := s.session;
    match e
    case Finish(o) => RecordWaits(s.db, t, o, work[o].keys, work[o].bytes);
    case GiveUp(o) => RecordWaits(s.db, t, o, work[o].keys, work[o].bytes);
    case HoldOid(o, reason) => HoldWaits(s.db, t, Some(o), reason);
    case FinishPurge => CompletePurgeWaits(s.db, t, s.db.tasks[t].objectCount);
    case _ =>
  }

  lemma VerifyWaits(s: Sys, e: VerifyEvent, next: Sys)
    requires Waits(s.db) && VerifyStep(s, e) == Some(next)
    ensures Waits(next.db)
  {
    match e
    case Judge(o) =>
      RecordVerifyWaits(s.db, s.session.task, s.session.generation, o, Verdict(s.session.looking.replies));
    case FinishVerify => CompleteVerifyWaits(s.db, s.session.task, s.session.generation, s.session.count);
    case _ =>
  }

  lemma StepWaits(s: Sys, e: Event, next: Sys)
    requires Frozen(s.db) && SessionOk(s) && Waits(s.db) && Apply(s, e) == Some(next)
    ensures Waits(next.db)
  {
    match e
    case Open(b) => RecoverWaits(s.db);
    case Exit =>
    case WriteBack(key, size) =>
    case Scanner(scan) => ScanWaits(s, scan, next);
    case Tasks(task) => TaskWaits(s, task, next);
    case Purger(purge) => PurgeWaits(s, purge, next);
    case Verifier(verify) => VerifyWaits(s, verify, next);
  }

  lemma {:induction false} AlwaysWaits(r: Run, n: nat)
    requires Happened(r) && n <= |r.events|
    ensures Waits(r.states[n].db)
  {
    if n > 0 {
      AlwaysWaits(r, n - 1);
      AlwaysGood(r, n - 1);
      StepWaits(r.states[n - 1], r.events[n - 1], r.states[n]);
    }
  }

  /**
   In every history: while object 0 is an active member of a task, that task has neither its
   deletion milestone nor its verification, and while it is on the list the tool never reports
   ALL_DONE.
   */
  lemma ZeroBlocksItsTask(r: Run, n: nat, t: TaskId)
    requires Happened(r) && n <= |r.events| && Active(r.states[n].db, t, 0)
    ensures t in r.states[n].db.tasks && !r.states[n].db.tasks[t].purged && !r.states[n].db.tasks[t].done
  {
    AlwaysGood(r, n);
    AlwaysWaits(r, n);
    assert (t, 0) in r.states[n].db.members;
  }

  lemma ZeroBlocksAllDone(r: Run, n: nat, locked: bool)
    requires Happened(r) && n <= |r.events| && 0 in r.states[n].db.scan
    ensures !AllDone(r.states[n].db, locked)
  {
    AlwaysGood(r, n);
    AlwaysWaits(r, n);
    if AllDone(r.states[n].db, locked) {
      AllDoneIsBacked(r.states[n].db, locked);
    }
  }
}
