/** What every event of the tool keeps, in the ledger and in the running command. */
module SystemInvariants {
  import opened Wrappers
  import opened Capacity
  import opened Ledger
  import opened LedgerInvariants
  import opened LedgerTheorems
  import opened System
  import Keyset

  /** What a command may rely on while it runs, although it read its task only once. */
  ghost predicate SessionOk(s: Sys) {
    match s.session
    case Idle => true
    case Opened(_) => true
    case Scanning(read) => s.db.tasks == map[] && !Sealed(s.db) && s.db.meta.Some? && Oids(read) <= s.db.scan.Keys
    case Deferring(t) => t in s.db.tasks
    case Purging(t, halted, work) =>
      t in s.db.tasks && !s.db.tasks[t].done && (!halted ==> NoHold(s.db))
      && forall o :: o in work ==> 0 < o && Active(s.db, t, o)
    case Verifying(t, generation, count, _) =>
      t in s.db.tasks
      && (var row := s.db.tasks[t];
          !row.done && !Held(row) && row.phase == Verify && row.generation == generation && row.objectCount == count)
      && AllProcessed(s.db, t)
  }

  ghost predicate Good(s: Sys) {
    Inv(s.db) && SessionOk(s)
  }

  lemma ResolvesToTask(db: Db, id: TaskId)
    ensures ResolveCurrent(db, id).Ok? ==> ResolveCurrent(db, id).value in db.tasks
    ensures ResolvePurge(db, id).Ok? ==> ResolvePurge(db, id).value in db.tasks && NoHold(db)
    ensures ResolveVerify(db, id).Ok? ==> ResolveVerify(db, id).value in db.tasks
    ensures ResolveAdmin(db, id).Ok? ==> ResolveAdmin(db, id).value in db.tasks
  {
    if OpenTasks(db) != {} {
      assert Keyset.Min(OpenTasks(db)) in OpenTasks(db);
    }
    if AwaitingVerify(db) != {} {
      assert Keyset.Min(AwaitingVerify(db)) in AwaitingVerify(db);
    }
    if HeldTasks(db) != {} {
      assert Keyset.Min(HeldTasks(db)) in HeldTasks(db);
    }
  }

  lemma ScanStepGood(s: Sys, e: ScanEvent)
    requires Good(s) && ScanStep(s, e).Some?
    ensures Good(ScanStep(s, e).value)
  {
    match e
    case BindScan =>
      BindKeepsInv(s.db, s.session.binding);
    case StartScan =>
      BeginScanKeepsInv(s.db);
    case Insert(rows) =>
      InsertScanKeepsInv(s.db, rows);
      assert Oids(s.session.read + rows) == Oids(s.session.read) + Oids(rows);
    case SealScan =>
      FinishScanKeepsInv(s.db, |s.session.read|);
  }

  lemma StartPurgeSession(db: Db, t: TaskId)
    requires BeginPurge(db, t).Ok?
    ensures var after := BeginPurge(db, t).value; t in after.tasks && !after.tasks[t].done && NoHold(after)
  {
  }

  lemma DeferSession(db: Db, t: TaskId, o: Oid, reason: string)
    requires Defer(db, t, o, reason).Ok?
    ensures t in Defer(db, t, o, reason).value.tasks
  {
  }

  lemma AdminStepGood(s: Sys, e: TaskEvent)
    requires Good(s) && TaskStep(s, e).Some? && (e.DeferOid? || e.ResumeTask? || e.HoldTask?)
    ensures Good(TaskStep(s, e).value)
  {
    ResolvesToTask(s.db, e.id);
    match e
    case DeferOid(id, o, reason) =>
      DeferKeepsInv(s.db, ResolveAdmin(s.db, id).value, o, reason);
      DeferSession(s.db, ResolveAdmin(s.db, id).value, o, reason);
    case ResumeTask(id, reason) =>
      ResumeKeepsInv(s.db, ResolveAdmin(s.db, id).value, reason);
    case HoldTask(id, reason) =>
      HoldKeepsInv(s.db, ResolvePurge(s.db, id).value, None, reason);
  }

  lemma StartPurgeGood(s: Sys, e: TaskEvent)
    requires Good(s) && TaskStep(s, e).Some? && e.StartPurge?
    ensures Good(TaskStep(s, e).value)
  {
    var t := ResolvePurge(s.db, e.id).value;
    StartPurgeSession(s.db, t);
    BeginPurgeKeepsInv(s.db, t);
  }

  lemma StartVerifySession(db: Db, t: TaskId, restart: bool)
    requires BeginVerify(db, t, restart).Ok?
    ensures var after := BeginVerify(db, t, restart).value;
            t in after.tasks
            && (after.tasks[t].done
                || (!Held(after.tasks[t]) && after.tasks[t].phase == Verify && AllProcessed(after, t)))
  {
    CountsProcessed(db, t);
    assert AllProcessed(db, t) ==> AllProcessed(BeginVerify(db, t, restart).value, t);
  }

  lemma StartVerifyGood(s: Sys, t: TaskId, restart: bool)
    requires Good(s) && BeginVerify(s.db, t, restart).Ok? && t in BeginVerify(s.db, t, restart).value.tasks
    ensures Good(StartedVerify(s, t, BeginVerify(s.db, t, restart).value))
  {
    BeginVerifyKeepsInv(s.db, t, restart);
    StartVerifySession(s.db, t, restart);
  }

  lemma VerifyStartGood(s: Sys, id: TaskId, restart: bool)
    requires Good(s) && VerifyStart(s, id, restart).Some?
    ensures Good(VerifyStart(s, id, restart).value)
  {
    StartVerifyGood(s, ResolveVerify(s.db, id).value, restart);
  }

  lemma TaskStepGood(s: Sys, e: TaskEvent)
    requires Good(s) && TaskStep(s, e).Some?
    ensures Good(TaskStep(s, e).value)
  {
    match e
    case CreateTask(target, max, retry, id) =>
      CreateKeepsInv(s.db, target, max, retry, id);
    case FinishDefer =>
      CompletePurgeKeepsInv(s.db, s.session.task, s.db.tasks[s.session.task].objectCount);
    case StartPurge(_) =>
      StartPurgeGood(s, e);
    case StartVerify(id, restart) =>
      VerifyStartGood(s, id, restart);
    case _ =>
      AdminStepGood(s, e);
  }

  lemma ResultInv(s: Sys, e: PurgeEvent)
    requires Inv(s.db) && s.session.Purging? && s.session.task in s.db.tasks && !s.db.tasks[s.session.task].done
    requires PurgeStep(s, e).Some? && (e.Finish? || e.GiveUp?)
    ensures Inv(PurgeStep(s, e).value.db)
  {
    var Purging(t, _, work) := s.session;
    var o := e.oid;
    RecordDoneKeepsInv(s.db, t, o, work[o].keys, work[o].bytes);
    RecordFailKeepsInv(s.db, t, o, work[o].keys, work[o].bytes);
  }

  lemma PurgeStepInv(s: Sys, e: PurgeEvent)
    requires Inv(s.db) && s.session.Purging? && s.session.task in s.db.tasks && !s.db.tasks[s.session.task].done
    requires PurgeStep(s, e).Some?
    ensures Inv(PurgeStep(s, e).value.db)
  {
    var Purging(t, halted, work) := s.session;
    match e
    case Finish(_) => ResultInv(s, e);
    case GiveUp(_) => ResultInv(s, e);
    case HoldOid(o, reason) =>
      HoldKeepsInv(s.db, t, Some(o), reason);
    case FinishPurge =>
      CompletePurgeKeepsInv(s.db, t, s.db.tasks[t].objectCount);
    case _ =>
  }

  /** A result or a hold of one object changes no assignment and no other row of the tasks. */
  lemma RecordKeepsSession(s: Sys, e: PurgeEvent)
    requires SessionOk(s) && PurgeStep(s, e).Some? && (e.Finish? || e.GiveUp? || e.HoldOid?)
    ensures SessionOk(PurgeStep(s, e).value)
  {
  }

  lemma PurgeStepSession(s: Sys, e: PurgeEvent)
    requires SessionOk(s) && PurgeStep(s, e).Some?
    ensures SessionOk(PurgeStep(s, e).value)
  {
    match e
    case Finish(_) => RecordKeepsSession(s, e);
    case GiveUp(_) => RecordKeepsSession(s, e);
    case HoldOid(_, _) => RecordKeepsSession(s, e);
    case _ =>
  }

  lemma PurgeStepGood(s: Sys, e: PurgeEvent)
    requires Good(s) && PurgeStep(s, e).Some?
    ensures Good(PurgeStep(s, e).value)
  {
    PurgeStepInv(s, e);
    PurgeStepSession(s, e);
  }

  lemma JudgeSession(s: Sys, o: Oid, check: Check)
    requires SessionOk(s) && s.session.Verifying?
    requires RecordVerify(s.db, s.session.task, s.session.generation, o, check).Ok?
    ensures SessionOk(s.(db := RecordVerify(s.db, s.session.task, s.session.generation, o, check).value,
                         session := s.session.(looking := NoObject)))
  {
  }

  lemma JudgeGood(s: Sys, o: Oid, check: Check)
    requires Good(s) && s.session.Verifying?
    requires RecordVerify(s.db, s.session.task, s.session.generation, o, check).Ok?
    ensures Good(s.(db := RecordVerify(s.db, s.session.task, s.session.generation, o, check).value,
                    session := s.session.(looking := NoObject)))
  {
    RecordVerifyKeepsInv(s.db, s.session.task, s.session.generation, o, check);
    JudgeSession(s, o, check);
  }

  /** Looking changes nothing but what has been seen. */
  lemma LookGood(s: Sys, o: Oid, reply: Reply)
    requires Good(s) && VerifyStep(s, Look(o, reply)).Some?
    ensures Good(VerifyStep(s, Look(o, reply)).value)
  {
    var next := VerifyStep(s, Look(o, reply)).value;
    assert next.db == s.db && next.session == s.session.(looking := next.session.looking);
  }

  lemma VerifyStepGood(s: Sys, e: VerifyEvent)
    requires Good(s) && VerifyStep(s, e).Some?
    ensures Good(VerifyStep(s, e).value)
  {
    match e
    case Look(o, reply) =>
      LookGood(s, o, reply);
    case Judge(o) =>
      JudgeGood(s, o, Verdict(s.session.looking.replies));
    case FinishVerify =>
      CompleteVerifyKeepsInv(s.db, s.session.task, s.session.generation, s.session.count);
  }

  /** Every event leads from a good state to a good state. */
  lemma StepGood(s: Sys, e: Event, next: Sys)
    requires Good(s) && Apply(s, e) == Some(next)
    ensures Good(next)
  {
    match e
    case Open(b) => RecoverKeepsInv(s.db);
    case Exit =>
    case WriteBack(key, size) =>
    case Scanner(scan) => ScanStepGood(s, scan);
    case Tasks(task) => TaskStepGood(s, task);
    case Purger(purge) => PurgeStepGood(s, purge);
    case Verifier(verify) => VerifyStepGood(s, verify);
  }

  /** The invariant holds in every state of every history. */
  lemma {:induction false} AlwaysGood(r: Run, n: nat)
    requires Happened(r) && n <= |r.events|
    ensures Good(r.states[n])
  {
    if n == 0 {
      InvEmpty();
    } else {
      AlwaysGood(r, n - 1);
      StepGood(r.states[n - 1], r.events[n - 1], r.states[n]);
    }
  }
}
