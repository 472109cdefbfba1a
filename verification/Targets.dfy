/**
 Which task a command touches, and which database: a command that was given a task number works
 on that task alone until it ends, and a run for another bucket changes no table at all.
 */
module Targets {
  import opened Wrappers
  import opened Ledger
  import opened LedgerInvariants
  import opened LedgerOutcomes
  import opened System
  import opened SystemInvariants

  /** The row of the task and the rows of its members. */
  ghost predicate SameTask(db: Db, later: Db, u: TaskId) {
    && (u in later.tasks <==> u in db.tasks) && (u in db.tasks ==> later.tasks[u] == db.tasks[u])
    && (forall k: RowKey :: k.0 == u ==> (k in later.members <==> k in db.members))
    && (forall k :: k in db.members && k.0 == u ==> later.members[k] == db.members[k])
  }

  lemma SameTaskThen(a: Db, b: Db, c: Db, u: TaskId)
    requires SameTask(a, b, u) && SameTask(b, c, u)
    ensures SameTask(a, c, u)
  {
  }

  /** The event starts a command that is given a task number. */
  predicate Names(e: Event, id: TaskId) {
    && id != 0 && e.Tasks? && !e.task.CreateTask? && !e.task.FinishDefer? && e.task.id == id
  }

  /** The command at work is one on this task. */
  predicate WorksFor(c: Session, id: TaskId) {
    match c
    case Deferring(t) => t == id
    case Purging(t, _, _) => t == id
    case Verifying(t, _, _, _) => t == id
    case _ => false
  }

  lemma BeginPurgeOther(db: Db, t: TaskId, u: TaskId)
    requires u != t && BeginPurge(db, t).Ok?
    ensures SameTask(db, BeginPurge(db, t).value, u)
  {
  }

  lemma BeginVerifyOther(db: Db, t: TaskId, restart: bool, u: TaskId)
    requires u != t && BeginVerify(db, t, restart).Ok?
    ensures SameTask(db, BeginVerify(db, t, restart).value, u)
  {
  }

  lemma DeferOther(db: Db, t: TaskId, o: Oid, reason: string, u: TaskId)
    requires u != t && Defer(db, t, o, reason).Ok?
    ensures SameTask(db, Defer(db, t, o, reason).value, u)
  {
    DeferExact(db, t, o, reason);
  }

  lemma ResumeOther(db: Db, t: TaskId, reason: string, u: TaskId)
    requires u != t && Resume(db, t, reason).Ok?
    ensures SameTask(db, Resume(db, t, reason).value, u)
  {
  }

  lemma HoldOther(db: Db, t: TaskId, oid: Option<Oid>, reason: string, u: TaskId)
    requires u != t
    ensures SameTask(db, Hold(db, t, oid, reason), u)
  {
  }

  lemma RecordOther(db: Db, t: TaskId, o: Oid, keys: nat, bytes: nat, u: TaskId)
    requires u != t
    ensures RecordDone(db, t, o, keys, bytes).Ok? ==> SameTask(db, RecordDone(db, t, o, keys, bytes).value, u)
    ensures RecordFail(db, t, o, keys, bytes).Ok? ==> SameTask(db, RecordFail(db, t, o, keys, bytes).value, u)
  {
  }

  /** A command given a number works on that task, and its first transaction changes no other. */
  lemma NamedTaskOnly(s: Sys, e: Event, next: Sys, id: TaskId, u: TaskId)
    requires Milestones(s.db) && Apply(s, e) == Some(next) && Names(e, id) && u != id
    ensures SameTask(s.db, next.db, u) && (next.session == Idle || WorksFor(next.session, id))
  {
    match e.task
    case DeferOid(_, o, reason) =>
      ResolveAdminExact(s.db, id, id);
      DeferOther(s.db, id, o, reason, u);
    case ResumeTask(_, reason) =>
      ResolveAdminExact(s.db, id, id);
      ResumeOther(s.db, id, reason, u);
    case HoldTask(_, reason) =>
      PurgeTarget(s.db, id);
      HoldOther(s.db, id, None, reason, u);
    case StartPurge(_) =>
      PurgeTarget(s.db, id);
      BeginPurgeOther(s.db, id, u);
    case StartVerify(_, restart) =>
      ResolveVerifyExact(s.db, id, id);
      BeginVerifyOther(s.db, id, restart, u);
  }

  lemma PurgeTarget(db: Db, id: TaskId)
    requires Milestones(db) && id != 0 && ResolvePurge(db, id).Ok?
    ensures ResolvePurge(db, id) == Ok(id)
  {
    ResolvePurgeExact(db, id, ResolvePurge(db, id).value);
  }

  lemma PurgeOther(s: Sys, e: PurgeEvent, next: Sys, id: TaskId, u: TaskId)
    requires PurgeStep(s, e) == Some(next) && WorksFor(s.session, id) && u != id
    ensures SameTask(s.db, next.db, u) && (next.session == Idle || WorksFor(next.session, id))
  {
    var Purging(t, halted, work) := s.session;
    match e
    case Finish(o) => RecordOther(s.db, t, o, work[o].keys, work[o].bytes, u);
    case GiveUp(o) => RecordOther(s.db, t, o, work[o].keys, work[o].bytes, u);
    case HoldOid(o, reason) => HoldOther(s.db, t, Some(o), reason, u);
    case _ =>
  }

  lemma VerifyOther(s: Sys, e: VerifyEvent, next: Sys, id: TaskId, u: TaskId)
    requires VerifyStep(s, e) == Some(next) && WorksFor(s.session, id) && u != id
    ensures SameTask(s.db, next.db, u) && (next.session == Idle || WorksFor(next.session, id))
  {
  }

  /** While it runs, a command changes no task but its own. */
  lemma OwnTaskOnly(s: Sys, e: Event, next: Sys, id: TaskId, u: TaskId)
    requires Apply(s, e) == Some(next) && WorksFor(s.session, id) && u != id
    ensures SameTask(s.db, next.db, u) && (next.session == Idle || WorksFor(next.session, id))
  {
    match e
    case Purger(purge) => PurgeOther(s, purge, next, id, u);
    case Verifier(verify) => VerifyOther(s, verify, next, id, u);
    case _ =>
  }

  /** The command started at moment `i` has not ended before moment `j`. */
  ghost predicate Running(r: Run, i: nat, j: nat)
    requires j < |r.states|
  {
    forall m :: i < m < j ==> r.states[m].session != Idle
  }

  lemma CommandStarts(r: Run, i: nat, id: TaskId, u: TaskId)
    requires Happened(r) && i < |r.events| && Names(r.events[i], id) && u != id
    ensures SameTask(r.states[i].db, r.states[i + 1].db, u)
    ensures r.states[i + 1].session == Idle || WorksFor(r.states[i + 1].session, id)
  {
    AlwaysGood(r, i);
    NamedTaskOnly(r.states[i], r.events[i], r.states[i + 1], id, u);
  }

  lemma CommandGoesOn(r: Run, i: nat, id: TaskId, u: TaskId)
    requires Happened(r) && i < |r.events| && WorksFor(r.states[i].session, id) && u != id
    ensures SameTask(r.states[i].db, r.states[i + 1].db, u)
    ensures r.states[i + 1].session == Idle || WorksFor(r.states[i + 1].session, id)
  {
    OwnTaskOnly(r.states[i], r.events[i], r.states[i + 1], id, u);
  }

  /**
   From its first transaction to its end, a command that was given a task number leaves every
   other task with its row, its members and their checks as they were.
   */
  lemma {:induction false} CommandKeepsToItsTask(r: Run, i: nat, j: nat, id: TaskId, u: TaskId)
    requires Happened(r) && i < j <= |r.events| && Names(r.events[i], id) && u != id && Running(r, i, j)
    ensures SameTask(r.states[i].db, r.states[j].db, u)
    ensures r.states[j].session == Idle || WorksFor(r.states[j].session, id)
    decreases j
  {
    if j == i + 1 {
      CommandStarts(r, i, id, u);
    } else {
      CommandKeepsToItsTask(r, i, j - 1, id, u);
      CommandGoesOn(r, j - 1, id, u);
      SameTaskThen(r.states[i].db, r.states[j - 1].db, r.states[j].db, u);
    }
  }

  // ---------------------------------------------------------------- whose database

  /** A command has been opened for another bucket than the one the database is bound to. */
  predicate Foreign(s: Sys) {
    s.session.Opened? && s.db.meta.Some? && s.db.meta.value.binding != s.session.binding
  }

  lemma ForeignStep(s: Sys, e: Event, next: Sys)
    requires Apply(s, e) == Some(next) && Foreign(s)
    ensures next.db == s.db && (next.session == s.session || next.session == Idle)
  {
  }

  /** A command for another bucket changes nothing: it is refused whatever it tries, until it ends. */
  lemma {:induction false} ForeignRunsChangeNothing(r: Run, i: nat, j: nat)
    requires Happened(r) && i < j <= |r.events| && Foreign(r.states[i]) && Running(r, i, j)
    ensures r.states[j].db == r.states[i].db
    ensures r.states[j].session == r.states[i].session || r.states[j].session == Idle
    decreases j
  {
    assert Apply(r.states[j - 1], r.events[j - 1]) == Some(r.states[j]);
    if j > i + 1 {
      ForeignRunsChangeNothing(r, i, j - 1);
    }
    ForeignStep(r.states[j - 1], r.events[j - 1], r.states[j]);
  }

  /** What the running command relies on: it was opened for this bucket, and its list is sealed unless it scans. */
  ghost predicate At(s: Sys, b: Binding) {
    match s.session
    case Idle => true
    case Opened(c) => c == b
    case Scanning(_) => s.db.meta.Some? && s.db.meta.value.binding == b
    case _ => Sealed(s.db) && s.db.meta.value.binding == b
  }

  lemma ScanStaysAt(s: Sys, e: ScanEvent, next: Sys, b: Binding)
    requires ScanStep(s, e) == Some(next) && At(s, b)
    ensures At(next, b) && !s.session.Idle?
  {
  }

  lemma TaskStaysAt(s: Sys, e: TaskEvent, next: Sys, b: Binding)
    requires TaskStep(s, e) == Some(next) && At(s, b)
    ensures At(next, b) && !s.session.Idle?
  {
    match e
    case StartVerify(id, restart) =>
      assert BeginVerify(s.db, ResolveVerify(s.db, id).value, restart).value.meta == s.db.meta;
    case _ =>
  }

  lemma WorkStaysAt(s: Sys, e: Event, next: Sys, b: Binding)
    requires Apply(s, e) == Some(next) && At(s, b) && (e.Purger? || e.Verifier?)
    ensures At(next, b) && !s.session.Idle?
  {
  }

  /** Only opening a database begins a command, and the command stays with the bucket it was opened for. */
  lemma StaysAt(s: Sys, e: Event, next: Sys, b: Binding)
    requires Apply(s, e) == Some(next) && At(s, b)
    ensures At(next, if e.Open? then e.binding else b)
    ensures s.session.Idle? && !next.session.Idle? ==> e.Open?
  {
    match e
    case Scanner(scan) => ScanStaysAt(s, scan, next, b);
    case Tasks(task) => TaskStaysAt(s, task, next, b);
    case Purger(_) => WorkStaysAt(s, e, next, b);
    case Verifier(_) => WorkStaysAt(s, e, next, b);
    case _ =>
  }

  lemma StaysAtNext(r: Run, n: nat, b: Binding)
    requires Happened(r) && n < |r.events| && At(r.states[n], b)
    ensures At(r.states[n + 1], if r.events[n].Open? then r.events[n].binding else b)
    ensures r.states[n].session.Idle? && !r.states[n + 1].session.Idle? ==> r.events[n].Open?
    ensures r.events[n].Open? ==> At(r.states[n + 1], r.events[n].binding)
  {
    StaysAt(r.states[n], r.events[n], r.states[n + 1], b);
  }

  /**
   Whatever command is at work was opened since the last one ended, and for the bucket that the
   database is bound to; a task command works on a sealed list.
   */
  lemma {:induction false} EveryCommandWasOpened(r: Run, n: nat) returns (j: nat)
    requires Happened(r) && n <= |r.events| && !r.states[n].session.Idle?
    ensures j < n && r.events[j].Open? && At(r.states[n], r.events[j].binding) && Running(r, j, n)
    decreases n
  {
    if n == 0 {
      assert false;
    } else if r.states[n - 1].session.Idle? {
      j := n - 1;
      StaysAtNext(r, j, EMPTY_BINDING);
    } else {
      j := EveryCommandWasOpened(r, n - 1);
      StaysAtNext(r, n - 1, r.events[j].binding);
      if r.events[n - 1].Open? {
        j := n - 1;
      }
    }
  }

  const EMPTY_BINDING: Binding := Binding("", "", "", "", "", 0)
}
