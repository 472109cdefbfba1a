/** Facts about whole histories: what only moves forward, and what a hold blocks. */
module Histories {
  import opened Wrappers
  import opened Capacity
  import opened Ledger
  import opened LedgerInvariants
  import opened LedgerTheorems
  import opened System
  import opened SystemInvariants
  import Keyset

  // ---------------------------------------------------------------- what only moves forward

  /** Manifests, memberships, deferrals, milestones, the binding and the audit trail are never undone. */
  ghost predicate Forward(db: Db, later: Db) {
    && (db.meta.Some? ==> later.meta.Some? && later.meta.value.binding == db.meta.value.binding)
    && (Sealed(db) ==> Sealed(later) && later.scan == db.scan)
    && (forall o :: o in db.scan ==> o in later.scan && later.scan[o] == db.scan[o])
    && (forall t :: t in db.tasks ==> t in later.tasks && RowForward(db.tasks[t], later.tasks[t]))
    && (forall k :: k in db.members ==> k in later.members && (db.members[k].deferred ==> later.members[k].deferred))
    && (forall o :: o in db.progress ==> o in later.progress
                                         && db.progress[o].keys <= later.progress[o].keys
                                         && db.progress[o].bytes <= later.progress[o].bytes)
    && db.audit <= later.audit
  }

  ghost predicate RowForward(s: Task, later: Task) {
    && later.digest == s.digest && later.objectCount == s.objectCount
    && later.target == s.target && later.logicalBytes == s.logicalBytes
    && (s.purged ==> later.purged) && s.generation <= later.generation
  }

  lemma ForwardTransitive(a: Db, b: Db, c: Db)
    requires Forward(a, b) && Forward(b, c)
    ensures Forward(a, c)
  {
  }

  lemma RowIsForward(db: Db, t: TaskId, next: Task)
    requires t in db.tasks && RowForward(db.tasks[t], next)
    ensures Forward(db, WithTask(db, t, next))
  {
  }

  lemma RecoverForward(db: Db)
    ensures Forward(db, Recover(db))
  {
  }

  lemma AllocateForward(db: Db, target: nat, retry: bool, id: TaskId, selected: seq<ScanRow>)
    requires Frozen(db) && NewId(db, id)
    ensures Forward(db, Allocate(db, target, retry, id, selected))
  {
    AllocatedRows(db, target, retry, id, selected);
  }

  lemma CreateForward(db: Db, target: nat, max: int, retry: bool, id: TaskId)
    requires Frozen(db) && NewId(db, id)
    ensures var r := Create(db, target, max, retry, id); r.Ok? && r.value.Fresh? ==> Forward(db, r.value.db)
  {
    CreateFacts(db, target, max, retry, id);
    var r := Create(db, target, max, retry, id);
    if r.Ok? && r.value.Fresh? {
      AllocateForward(db, target, retry, id, r.value.selected);
    }
  }

  lemma RequeueForward(db: Db, t: TaskId, oids: set<Oid>, next: Task)
    requires t in db.tasks && RowForward(db.tasks[t], next)
    ensures Forward(db, WithTask(db.(progress := Requeued(db.progress, oids)), t, next))
  {
  }

  lemma BeginPurgeForward(db: Db, t: TaskId)
    ensures BeginPurge(db, t).Ok? ==> Forward(db, BeginPurge(db, t).value)
  {
    if BeginPurge(db, t).Ok? {
      RequeueForward(db, t, ResidueOids(db, t), BeginPurge(db, t).value.tasks[t]);
    }
  }

  lemma DeferForward(db: Db, t: TaskId, o: Oid, reason: string)
    ensures Defer(db, t, o, reason).Ok? ==> Forward(db, Defer(db, t, o, reason).value)
  {
  }

  lemma ResumeForward(db: Db, t: TaskId, reason: string)
    ensures Resume(db, t, reason).Ok? ==> Forward(db, Resume(db, t, reason).value)
  {
  }

  lemma HoldForward(db: Db, t: TaskId, oid: Option<Oid>, reason: string)
    ensures Forward(db, Hold(db, t, oid, reason))
  {
  }

  lemma CompletePurgeForward(db: Db, t: TaskId, count: nat)
    ensures CompletePurge(db, t, count).Ok? ==> Forward(db, CompletePurge(db, t, count).value)
  {
    if CompletePurge(db, t, count).Ok? {
      RowIsForward(db, t, db.tasks[t].(purged := true, phase := Purge));
    }
  }

  lemma RecordForward(db: Db, t: TaskId, o: Oid, keys: nat, bytes: nat)
    ensures RecordDone(db, t, o, keys, bytes).Ok? ==> Forward(db, RecordDone(db, t, o, keys, bytes).value)
    ensures RecordFail(db, t, o, keys, bytes).Ok? ==> Forward(db, RecordFail(db, t, o, keys, bytes).value)
  {
  }

  lemma BeginVerifyForward(db: Db, t: TaskId, restart: bool)
    ensures BeginVerify(db, t, restart).Ok? ==> Forward(db, BeginVerify(db, t, restart).value)
  {
    var r := BeginVerify(db, t, restart);
    if r.Ok? && r.value != db {
      RowIsForward(db, t, r.value.tasks[t]);
    }
  }

  lemma RecordVerifyForward(db: Db, t: TaskId, generation: nat, o: Oid, check: Check)
    ensures RecordVerify(db, t, generation, o, check).Ok? ==>
              Forward(db, RecordVerify(db, t, generation, o, check).value)
  {
  }

  lemma CompleteVerifyForward(db: Db, t: TaskId, generation: nat, count: nat)
    ensures CompleteVerify(db, t, generation, count).Ok? ==> Forward(db, CompleteVerify(db, t, generation, count).value)
  {
    var r := CompleteVerify(db, t, generation, count);
    if r.Ok? && r.value != db {
      RowIsForward(db, t, db.tasks[t].(done := true));
    }
  }

  lemma ScanForward(s: Sys, e: ScanEvent)
    requires SessionOk(s) && ScanStep(s, e).Some?
    ensures Forward(s.db, ScanStep(s, e).value.db)
  {
  }

  lemma VerifyStartForward(s: Sys, id: TaskId, restart: bool)
    requires VerifyStart(s, id, restart).Some?
    ensures Forward(s.db, VerifyStart(s, id, restart).value.db)
  {
    BeginVerifyForward(s.db, ResolveVerify(s.db, id).value, restart);
  }

  lemma TaskForward(s: Sys, e: TaskEvent)
    requires Frozen(s.db) && TaskStep(s, e).Some?
    ensures Forward(s.db, TaskStep(s, e).value.db)
  {
    match e
    case CreateTask(target, max, retry, id) => CreateForward(s.db, target, max, retry, id);
    case DeferOid(id, o, reason) => DeferForward(s.db, ResolveAdmin(s.db, id).value, o, reason);
    case FinishDefer => CompletePurgeForward(s.db, s.session.task, s.db.tasks[s.session.task].objectCount);
    case ResumeTask(id, reason) => ResumeForward(s.db, ResolveAdmin(s.db, id).value, reason);
    case HoldTask(id, reason) => HoldForward(s.db, ResolvePurge(s.db, id).value, None, reason);
    case StartPurge(id) => BeginPurgeForward(s.db, ResolvePurge(s.db, id).value);
    case StartVerify(id, restart) => VerifyStartForward(s, id, restart);
  }

  lemma PurgeForward(s: Sys, e: PurgeEvent)
    requires PurgeStep(s, e).Some?
    ensures Forward(s.db, PurgeStep(s, e).value.db)
  {
    var Purging(t, halted, work) := s.session;
    match e
    case Finish(o) => RecordForward(s.db, t, o, work[o].keys, work[o].bytes);
    case GiveUp(o) => RecordForward(s.db, t, o, work[o].keys, work[o].bytes);
    case HoldOid(o, reason) => HoldForward(s.db, t, Some(o), reason);
    case FinishPurge => CompletePurgeForward(s.db, t, s.db.tasks[t].objectCount);
    case _ =>
  }

  lemma VerifyForward(s: Sys, e: VerifyEvent)
    requires VerifyStep(s, e).Some?
    ensures Forward(s.db, VerifyStep(s, e).value.db)
  {
    match e
    case Judge(o) =>
      RecordVerifyForward(s.db, s.session.task, s.session.generation, o, Verdict(s.session.looking.replies));
    case FinishVerify => CompleteVerifyForward(s.db, s.session.task, s.session.generation, s.session.count);
    case _ =>
  }

  lemma StepForward(s: Sys, e: Event, next: Sys)
    requires Frozen(s.db) && SessionOk(s) && Apply(s, e) == Some(next)
    ensures Forward(s.db, next.db)
  {
    match e
    case Open(b) => RecoverForward(s.db);
    case Exit =>
    case WriteBack(key, size) =>
    case Scanner(scan) => ScanForward(s, scan);
    case Tasks(task) => TaskForward(s, task);
    case Purger(purge) => PurgeForward(s, purge);
    case Verifier(verify) => VerifyForward(s, verify);
  }

  lemma {:induction false} ForwardChain(dbs: seq<Db>)
    requires dbs != [] && forall m :: 0 <= m < |dbs| - 1 ==> Forward(dbs[m], dbs[m + 1])
    ensures Forward(dbs[0], dbs[|dbs| - 1])
  {
    if 1 < |dbs| {
      var init := dbs[..|dbs| - 1];
      ForwardChain(init);
      ForwardTransitive(dbs[0], dbs[|dbs| - 2], dbs[|dbs| - 1]);
    }
  }

  lemma ForwardAt(r: Run, m: nat)
    requires Happened(r) && m < |r.events|
    ensures Forward(r.states[m].db, r.states[m + 1].db)
  {
    AlwaysGood(r, m);
    StepForward(r.states[m], r.events[m], r.states[m + 1]);
  }

  lemma ForwardBetween(r: Run, i: nat, j: nat, n: nat)
    requires Happened(r) && i + n < j <= |r.events|
    ensures Forward(Tables(r, i, j)[n], Tables(r, i, j)[n + 1])
  {
    assert Tables(r, i, j)[n] == r.states[i + n].db && Tables(r, i, j)[n + 1] == r.states[i + n + 1].db;
    ForwardAt(r, i + n);
  }

  lemma TablesForward(r: Run, i: nat, j: nat)
    requires Happened(r) && i <= j <= |r.events|
    ensures var dbs := Tables(r, i, j); forall n :: 0 <= n < |dbs| - 1 ==> Forward(dbs[n], dbs[n + 1])
  {
    forall n | 0 <= n < |Tables(r, i, j)| - 1 ensures Forward(Tables(r, i, j)[n], Tables(r, i, j)[n + 1]) {
      ForwardBetween(r, i, j, n);
    }
  }

  /** In any history, whatever an earlier state recorded the later states still record. */
  lemma AlwaysForward(r: Run, i: nat, j: nat)
    requires Happened(r) && i <= j <= |r.events|
    ensures Forward(r.states[i].db, r.states[j].db)
  {
    var dbs := Tables(r, i, j);
    TablesForward(r, i, j);
    assert dbs[0] == r.states[i].db && dbs[|dbs| - 1] == r.states[j].db;
    ForwardChain(dbs);
  }
}
