/** The safety latch and the stability of a finished task, over whole histories. */
module SafetyLatch {
  import opened Wrappers
  import opened Capacity
  import opened Ledger
  import opened LedgerInvariants
  import opened LedgerTheorems
  import opened System
  import opened SystemInvariants
  import Keyset

  // ---------------------------------------------------------------- the latch

  /** The two ways out of a hold: resuming the task, or deferring exactly the object it names. */
  predicate Releases(s: Sys, e: Event, t: TaskId)
    requires t in s.db.tasks
  {
    e.Tasks? && ReleasedBy(s.db, e.task, t)
  }

  predicate ReleasedBy(db: Db, e: TaskEvent, t: TaskId)
    requires t in db.tasks
  {
    match e
    case ResumeTask(id, _) => ResolveAdmin(db, id) == Ok(t)
    case DeferOid(id, o, _) => ResolveAdmin(db, id) == Ok(t) && db.tasks[t].holdOid == Some(o)
    case _ => false
  }

  predicate BeginsPurge(e: Event) {
    e.Tasks? && e.task.StartPurge?
  }

  /** No batch was created, the hold is unchanged, and the task gained no milestone. */
  ghost predicate Latched(db: Db, later: Db, t: TaskId) {
    && t in db.tasks && later.tasks.Keys == db.tasks.Keys
    && (var s, n := db.tasks[t], later.tasks[t];
        n.holdReason == s.holdReason && n.holdOid == s.holdOid && n.purged == s.purged && n.done == s.done)
  }

  lemma ScanLatched(s: Sys, e: ScanEvent, t: TaskId)
    requires t in s.db.tasks && ScanStep(s, e).Some?
    ensures Latched(s.db, ScanStep(s, e).value.db, t)
  {
  }

  lemma RowLatched(db: Db, u: TaskId, next: Task, t: TaskId)
    requires t in db.tasks && u in db.tasks && u != t
    ensures Latched(db, WithTask(db, u, next), t)
  {
  }

  lemma BeginVerifyLatched(db: Db, u: TaskId, restart: bool, t: TaskId)
    requires t in db.tasks && Held(db.tasks[t]) && BeginVerify(db, u, restart).Ok?
    ensures u != t && Latched(db, BeginVerify(db, u, restart).value, t)
  {
    var after := BeginVerify(db, u, restart).value;
    if after != db {
      RowLatched(db, u, after.tasks[u], t);
    }
  }

  lemma VerifyStartLatched(s: Sys, id: TaskId, restart: bool, t: TaskId)
    requires t in s.db.tasks && Held(s.db.tasks[t]) && VerifyStart(s, id, restart).Some?
    ensures Latched(s.db, VerifyStart(s, id, restart).value.db, t)
  {
    BeginVerifyLatched(s.db, ResolveVerify(s.db, id).value, restart, t);
  }

  lemma TaskLatched(s: Sys, e: TaskEvent, t: TaskId)
    requires t in s.db.tasks && Held(s.db.tasks[t]) && TaskStep(s, e).Some? && !ReleasedBy(s.db, e, t)
    ensures Latched(s.db, TaskStep(s, e).value.db, t) && !e.StartPurge? && !e.CreateTask?
  {
    assert !NoHold(s.db);
    match e
    case DeferOid(id, o, reason) => ResolvesToTask(s.db, id);
    case ResumeTask(id, reason) => ResolvesToTask(s.db, id);
    case StartVerify(id, restart) => VerifyStartLatched(s, id, restart, t);
    case _ =>
  }

  lemma PurgeLatched(s: Sys, e: PurgeEvent, t: TaskId)
    requires SessionOk(s) && t in s.db.tasks && Held(s.db.tasks[t]) && PurgeStep(s, e).Some?
    ensures Latched(s.db, PurgeStep(s, e).value.db, t)
  {
  }

  lemma VerifyLatched(s: Sys, e: VerifyEvent, t: TaskId)
    requires SessionOk(s) && t in s.db.tasks && Held(s.db.tasks[t]) && VerifyStep(s, e).Some?
    ensures Latched(s.db, VerifyStep(s, e).value.db, t)
  {
  }

  lemma StepLatched(s: Sys, e: Event, next: Sys, t: TaskId)
    requires SessionOk(s) && t in s.db.tasks && Held(s.db.tasks[t])
    requires Apply(s, e) == Some(next) && !Releases(s, e, t)
    ensures Latched(s.db, next.db, t) && !BeginsPurge(e)
  {
    match e
    case Open(b) =>
    case Exit =>
    case WriteBack(key, size) =>
    case Scanner(scan) => ScanLatched(s, scan, t);
    case Tasks(task) => TaskLatched(s, task, t);
    case Purger(purge) => PurgeLatched(s, purge, t);
    case Verifier(verify) => VerifyLatched(s, verify, t);
  }

  lemma {:induction false} LatchedChain(dbs: seq<Db>, t: TaskId)
    requires dbs != [] && t in dbs[0].tasks && Held(dbs[0].tasks[t])
    requires forall m :: 0 <= m < |dbs| - 1 && t in dbs[m].tasks && Held(dbs[m].tasks[t]) ==>
               Latched(dbs[m], dbs[m + 1], t)
    ensures Latched(dbs[0], dbs[|dbs| - 1], t)
  {
    if 1 < |dbs| {
      LatchedChain(dbs[..|dbs| - 1], t);
    }
  }

  /** Nothing between two moments of the history releases the hold on the task. */
  ghost predicate Unreleased(r: Run, i: nat, j: nat, t: TaskId)
    requires |r.states| == |r.events| + 1 && j <= |r.events|
  {
    forall m :: i <= m < j && t in r.states[m].db.tasks ==> !Releases(r.states[m], r.events[m], t)
  }

  lemma LatchedAt(r: Run, i: nat, j: nat, m: nat, t: TaskId)
    requires Happened(r) && i <= m < j <= |r.events| && Unreleased(r, i, j, t)
    requires t in r.states[m].db.tasks && Held(r.states[m].db.tasks[t])
    ensures Latched(r.states[m].db, r.states[m + 1].db, t) && !BeginsPurge(r.events[m])
  {
    AlwaysGood(r, m);
    StepLatched(r.states[m], r.events[m], r.states[m + 1], t);
  }

  /**
   From a hold until its release, in any history: the hold stands, no task is created, and the
   held task gains neither milestone.
   */
  lemma LatchHolds(r: Run, i: nat, j: nat, t: TaskId)
    requires Happened(r) && i <= j <= |r.events| && Unreleased(r, i, j, t)
    requires t in r.states[i].db.tasks && Held(r.states[i].db.tasks[t])
    ensures Latched(r.states[i].db, r.states[j].db, t)
  {
    var dbs := Tables(r, i, j);
    forall n | 0 <= n < |dbs| - 1 && t in dbs[n].tasks && Held(dbs[n].tasks[t]) ensures Latched(dbs[n], dbs[n + 1], t) {
      LatchedAt(r, i, j, i + n, t);
    }
    LatchedChain(dbs, t);
  }

  /** ... and no deletion pass begins on any task. */
  lemma LatchBlocksPurge(r: Run, i: nat, j: nat, t: TaskId, m: nat)
    requires Happened(r) && i <= m < j <= |r.events| && Unreleased(r, i, j, t)
    requires t in r.states[i].db.tasks && Held(r.states[i].db.tasks[t])
    ensures !BeginsPurge(r.events[m])
  {
    LatchHolds(r, i, m, t);
    LatchedAt(r, i, j, m, t);
  }

  /** A hold that names no object, such as a wrong bucket, ends only by an explicit resume. */
  lemma GlobalHoldNeedsResume(s: Sys, e: Event, next: Sys, t: TaskId)
    requires Good(s) && t in s.db.tasks && Held(s.db.tasks[t]) && s.db.tasks[t].holdOid == None
    requires Apply(s, e) == Some(next) && t in next.db.tasks && !Held(next.db.tasks[t])
    ensures e.Tasks? && e.task.ResumeTask? && ResolveAdmin(s.db, e.task.id) == Ok(t)
  {
    if !Releases(s, e, t) {
      StepLatched(s, e, next, t);
    }
  }

  /** Without an explicit number, an administrative command goes to a held task first. */
  lemma AdminFindsTheHold(db: Db)
    requires Inv(db)
    ensures !NoHold(db) ==> ResolveAdmin(db, 0).Ok? && Held(db.tasks[ResolveAdmin(db, 0).value])
    ensures NoHold(db) && OpenTasks(db) != {} ==> ResolveAdmin(db, 0) == Ok(Keyset.Min(OpenTasks(db)))
    ensures NoHold(db) && OpenTasks(db) == {} ==> ResolveAdmin(db, 0) == ResolveVerify(db, 0)
  {
    OneOpenTask(db);
    if !NoHold(db) {
      var t :| t in db.tasks && Held(db.tasks[t]);
      assert t in HeldTasks(db);
      assert Keyset.Min(HeldTasks(db)) in HeldTasks(db);
    } else {
      assert HeldTasks(db) == {};
    }
  }

  // ---------------------------------------------------------------- a finished task

  /** The only event that reopens a finished task. */
  predicate Restarts(s: Sys, e: Event, t: TaskId) {
    e.Tasks? && RestartedBy(s.db, e.task, t)
  }

  predicate RestartedBy(db: Db, e: TaskEvent, t: TaskId) {
    e.StartVerify? && e.restart && ResolveVerify(db, e.id) == Ok(t)
  }

  /** The row of the task and all its member rows are as they were. */
  ghost predicate Untouched(db: Db, later: Db, t: TaskId) {
    && t in db.tasks && t in later.tasks && later.tasks[t] == db.tasks[t]
    && (forall k :: k in later.members && k.0 == t <==> k in db.members && k.0 == t)
    && (forall k :: k in db.members && k.0 == t ==> later.members[k] == db.members[k])
  }

  lemma CreateUntouched(db: Db, target: nat, max: int, retry: bool, id: TaskId, t: TaskId)
    requires Frozen(db) && NewId(db, id) && t in db.tasks
    ensures var r := Create(db, target, max, retry, id); r.Ok? && r.value.Fresh? ==> Untouched(db, r.value.db, t)
  {
    CreateFacts(db, target, max, retry, id);
    var r := Create(db, target, max, retry, id);
    if r.Ok? && r.value.Fresh? {
      AllocatedRows(db, target, retry, id, r.value.selected);
    }
  }

  lemma RowUntouched(db: Db, u: TaskId, next: Task, t: TaskId)
    requires t in db.tasks && u in db.tasks && u != t
    ensures Untouched(db, WithTask(db, u, next), t)
  {
  }

  lemma DeferUntouched(db: Db, u: TaskId, o: Oid, reason: string, t: TaskId)
    requires t in db.tasks && db.tasks[t].done && Defer(db, u, o, reason).Ok?
    ensures Untouched(db, Defer(db, u, o, reason).value, t)
  {
  }

  lemma ResumeUntouched(db: Db, u: TaskId, reason: string, t: TaskId)
    requires Milestones(db) && t in db.tasks && db.tasks[t].done && Resume(db, u, reason).Ok?
    ensures Untouched(db, Resume(db, u, reason).value, t)
  {
  }

  lemma HoldUntouched(db: Db, u: TaskId, oid: Option<Oid>, reason: string, t: TaskId)
    requires t in db.tasks && db.tasks[t].done
    ensures Untouched(db, Hold(db, u, oid, reason), t)
  {
  }

  lemma BeginPurgeUntouched(db: Db, u: TaskId, t: TaskId)
    requires t in db.tasks && db.tasks[t].done && BeginPurge(db, u).Ok?
    ensures Untouched(db, BeginPurge(db, u).value, t)
  {
    RowUntouched(db.(progress := Requeued(db.progress, ResidueOids(db, u))), u, BeginPurge(db, u).value.tasks[u], t);
  }

  lemma BeginVerifyUntouched(db: Db, u: TaskId, restart: bool, t: TaskId)
    requires t in db.tasks && db.tasks[t].done && BeginVerify(db, u, restart).Ok? && !(restart && u == t)
    ensures Untouched(db, BeginVerify(db, u, restart).value, t)
  {
  }

  lemma VerifyStartUntouched(s: Sys, id: TaskId, restart: bool, t: TaskId)
    requires t in s.db.tasks && s.db.tasks[t].done && VerifyStart(s, id, restart).Some?
    requires !(restart && ResolveVerify(s.db, id) == Ok(t))
    ensures Untouched(s.db, VerifyStart(s, id, restart).value.db, t)
  {
    BeginVerifyUntouched(s.db, ResolveVerify(s.db, id).value, restart, t);
  }

  lemma TaskUntouched(s: Sys, e: TaskEvent, t: TaskId)
    requires Frozen(s.db) && Milestones(s.db) && t in s.db.tasks && s.db.tasks[t].done
    requires TaskStep(s, e).Some? && !RestartedBy(s.db, e, t)
    ensures Untouched(s.db, TaskStep(s, e).value.db, t)
  {
    match e
    case CreateTask(target, max, retry, id) => CreateUntouched(s.db, target, max, retry, id, t);
    case DeferOid(id, o, reason) => DeferUntouched(s.db, ResolveAdmin(s.db, id).value, o, reason, t);
    case ResumeTask(id, reason) => ResumeUntouched(s.db, ResolveAdmin(s.db, id).value, reason, t);
    case HoldTask(id, reason) => HoldUntouched(s.db, ResolvePurge(s.db, id).value, None, reason, t);
    case StartPurge(id) => BeginPurgeUntouched(s.db, ResolvePurge(s.db, id).value, t);
    case StartVerify(id, restart) => VerifyStartUntouched(s, id, restart, t);
    case FinishDefer =>
  }

  lemma PurgeUntouched(s: Sys, e: PurgeEvent, t: TaskId)
    requires SessionOk(s) && t in s.db.tasks && s.db.tasks[t].done && PurgeStep(s, e).Some?
    ensures Untouched(s.db, PurgeStep(s, e).value.db, t)
  {
  }

  lemma VerifyUntouched(s: Sys, e: VerifyEvent, t: TaskId)
    requires SessionOk(s) && t in s.db.tasks && s.db.tasks[t].done && VerifyStep(s, e).Some?
    ensures Untouched(s.db, VerifyStep(s, e).value.db, t)
  {
  }

  lemma RecoverUntouched(db: Db, t: TaskId)
    requires Milestones(db) && t in db.tasks && db.tasks[t].done
    ensures Untouched(db, Recover(db), t)
  {
  }

  lemma StepUntouched(s: Sys, e: Event, next: Sys, t: TaskId)
    requires Frozen(s.db) && Milestones(s.db) && SessionOk(s) && t in s.db.tasks && s.db.tasks[t].done
    requires Apply(s, e) == Some(next) && !Restarts(s, e, t)
    ensures Untouched(s.db, next.db, t)
  {
    match e
    case Open(b) => RecoverUntouched(s.db, t);
    case Exit =>
    case WriteBack(key, size) =>
    case Scanner(scan) =>
    case Tasks(task) => TaskUntouched(s, task, t);
    case Purger(purge) => PurgeUntouched(s, purge, t);
    case Verifier(verify) => VerifyUntouched(s, verify, t);
  }

  lemma {:induction false} UntouchedChain(dbs: seq<Db>, t: TaskId)
    requires dbs != [] && t in dbs[0].tasks && dbs[0].tasks[t].done
    requires forall m :: 0 <= m < |dbs| - 1 && t in dbs[m].tasks && dbs[m].tasks[t].done ==>
               Untouched(dbs[m], dbs[m + 1], t)
    ensures Untouched(dbs[0], dbs[|dbs| - 1], t)
  {
    if 1 < |dbs| {
      UntouchedChain(dbs[..|dbs| - 1], t);
    }
  }

  ghost predicate NotRestarted(r: Run, i: nat, j: nat, t: TaskId)
    requires |r.states| == |r.events| + 1 && j <= |r.events|
  {
    forall m :: i <= m < j ==> !Restarts(r.states[m], r.events[m], t)
  }

  lemma UntouchedAt(r: Run, i: nat, j: nat, m: nat, t: TaskId)
    requires Happened(r) && i <= m < j <= |r.events| && NotRestarted(r, i, j, t)
    requires t in r.states[m].db.tasks && r.states[m].db.tasks[t].done
    ensures Untouched(r.states[m].db, r.states[m + 1].db, t)
  {
    AlwaysGood(r, m);
    StepUntouched(r.states[m], r.events[m], r.states[m + 1], t);
  }

  /**
   A finished task stays finished until somebody restarts its verification: purges, failures,
   deferrals and retries of other tasks never touch its rows, and every one of its active
   objects stays processed and passed although results are shared between tasks.
   */
  lemma DoneIsStable(r: Run, i: nat, j: nat, t: TaskId)
    requires Happened(r) && i <= j <= |r.events| && NotRestarted(r, i, j, t)
    requires t in r.states[i].db.tasks && r.states[i].db.tasks[t].done
    ensures Untouched(r.states[i].db, r.states[j].db, t)
    ensures !Held(r.states[j].db.tasks[t]) && AllProcessed(r.states[j].db, t) && AllPassed(r.states[j].db, t)
  {
    var dbs := Tables(r, i, j);
    forall n | 0 <= n < |dbs| - 1 && t in dbs[n].tasks && dbs[n].tasks[t].done
      ensures Untouched(dbs[n], dbs[n + 1], t)
    {
      UntouchedAt(r, i, j, i + n, t);
    }
    UntouchedChain(dbs, t);
    AlwaysGood(r, j);
    DoneFacts(r.states[j].db, t);
  }

  lemma DoneFacts(db: Db, t: TaskId)
    requires Inv(db) && t in db.tasks && db.tasks[t].done
    ensures !Held(db.tasks[t]) && AllProcessed(db, t) && AllPassed(db, t)
  {
  }
}
