/**
 The progress database as the program holds it: one object whose tables its methods change in
 place, statement by statement. `View` is its value in the ledger model; every method is proved
 to be the transaction of that name, and to leave all tables alone when it refuses.
 */
module ProgressDb {
  import opened Wrappers
  import opened Capacity
  import opened Ledger
  import opened LedgerInvariants
  import LedgerTheorems
  import Keyset

  /** The transaction took place, or was refused and left the tables alone. */
  ghost predicate Outcome(r: Result<Db, LedgerError>, was: Db, now: Db, err: Option<LedgerError>) {
    match r
    case Ok(db) => err == None && now == db
    case Err(e) => err == Some(e) && now == was
  }

  /** The invariant of the ledger; a proof about an object sees into it only where it mentions `Inv`. */
  ghost predicate Sound(db: Db) {
    forall d {:trigger Inv(d)} :: d == db ==> Inv(d)
  }

  class Database {
    var meta: Option<Meta>
    var scan: map<Oid, Snapshot>
    var progress: map<Oid, Progress>
    var tasks: map<TaskId, Task>
    var members: map<RowKey, Member>
    var audit: seq<Action>
    /** AUTO_INCREMENT of purge_tasks. */
    var nextId: TaskId

    constructor ()
      ensures View() == EMPTY && Valid()
    {
      meta, scan, progress, tasks, members, audit, nextId := None, map[], map[], map[], map[], [], 1;
      InvEmpty();
    }

    function View(): Db
      reads this
    {
      Db(meta, scan, progress, tasks, members, audit)
    }

    /** The tables are sound, and the next number is new. */
    ghost predicate Valid()
      reads this
    {
      Sound(View()) && 0 < nextId && forall t :: t in tasks ==> t < nextId
    }

    /** UPDATE of one task row. */
    method PutTask(t: TaskId, row: Task)
      requires t in tasks
      modifies `tasks
      ensures tasks == old(tasks)[t := row] && View() == WithTask(old(View()), t, row)
    {
      tasks := tasks[t := row];
    }

    // -------------------------------------------------------------- recovery, binding, scan

    /** The recovery at the start of every locking command. */
    method EnsureSchema()
      requires Valid()
      modifies `tasks
      ensures Valid() && View() == Recover(old(View()))
    {
      RecoverKeepsInv(View());
      MarkRecoverable();
    }

    /** One UPDATE: every row that recovery applies to. */
    method MarkRecoverable()
      modifies `tasks
      ensures View() == Recover(old(View())) && tasks.Keys == old(tasks.Keys)
    {
      var left := tasks.Keys;
      var was := View();
      var recovered := tasks;
      while left != {}
        invariant left <= tasks.Keys == recovered.Keys
        invariant forall t :: t in tasks ==>
          recovered[t] == if t !in left && Recoverable(was, t) then tasks[t].(purged := true) else tasks[t]
        decreases left
      {
        var t :| t in left;
        if Recoverable(was, t) {
          recovered := recovered[t := recovered[t].(purged := true)];
        }
        left := left - {t};
      }
      tasks := recovered;
    }

    /** A database is bound on first use and only while it is empty. */
    method Bind(b: Binding) returns (err: Option<LedgerError>)
      requires Valid()
      modifies `meta
      ensures Valid()
      ensures Outcome(Ledger.Bind(old(View()), b), old(View()), View(), err)
    {
      BindKeepsInv(View(), b);
      if meta.None? {
        if |scan| > 0 || |progress| > 0 {
          NotEmpty(scan, progress);
          return Some(UnboundData);
        }
        meta := Some(Meta(b, NotScanned, None));
      }
      return CheckBinding(b);
    }

    lemma NotEmpty(a: map<Oid, Snapshot>, b: map<Oid, Progress>)
      ensures |a| > 0 || |b| > 0 <==> a != map[] || b != map[]
    {
      if a != map[] {
        var k :| k in a;
      }
      if b != map[] {
        var k :| k in b;
      }
    }

    function CheckBinding(b: Binding): Option<LedgerError>
      reads `meta
    {
      if meta.None? then Some(UnboundData)
      else if meta.value.binding != b then Some(WrongTask) else None
    }

    method BeginScan() returns (err: Option<LedgerError>)
      requires Valid()
      modifies `meta
      ensures Valid()
      ensures Outcome(Ledger.BeginScan(old(View())), old(View()), View(), err)
    {
      BeginScanKeepsInv(View());
      if meta.Some? && meta.value.scan == Complete {
        return Some(ScanSealed);
      }
      if tasks != map[] {
        return Some(TasksExist);
      }
      if meta.Some? {
        meta := Some(meta.value.(scan := Running, scanRows := None));
      }
      return None;
    }

    /** INSERT IGNORE of one batch of rows, while no task exists and the list is open. */
    method InsertScan(rows: seq<ScanRow>)
      requires Valid() && tasks == map[] && !Sealed(View()) && Fits(rows)
      modifies `scan
      ensures Valid() && View() == Ledger.InsertScan(old(View()), rows)
    {
      InsertScanKeepsInv(View(), rows);
      InsertRows(rows);
    }

    method InsertRows(rows: seq<ScanRow>)
      modifies `scan
      ensures View() == Ledger.InsertScan(old(View()), rows)
    {
      ghost var before := scan;
      for i := 0 to |rows|
        invariant scan == Inserted(before, rows[..i])
      {
        var r := rows[i];
        assert rows[..i + 1][..i] == rows[..i];
        if r.oid !in scan {
          scan := scan[r.oid := Snapshot(r.payload, r.status, r.version)];
        }
      }
      assert rows[..|rows|] == rows;
    }

    method FinishScan(rows: nat) returns (err: Option<LedgerError>)
      requires Valid() && tasks == map[]
      modifies `meta
      ensures Valid()
      ensures Outcome(Ledger.FinishScan(old(View()), rows), old(View()), View(), err)
    {
      FinishScanKeepsInv(View(), rows);
      if rows == 0 {
        return Some(EmptyScan);
      }
      if |scan| != rows {
        return Some(CountDiffers);
      }
      if meta.Some? {
        meta := Some(meta.value.(scan := Complete, scanRows := Some(rows)));
      }
      return None;
    }

    // -------------------------------------------------------------- allocation

    lemma CreateKeepsSound(db: Db, target: nat, max: int, retry: bool, id: TaskId)
      requires Sound(db) && forall t :: t in db.tasks ==> t < id
      ensures match Ledger.Create(db, target, max, retry, id)
              case Ok(Fresh(_, after)) => Sound(after)
              case _ => true
      ensures forall o :: o in db.scan ==> db.scan[o].payload < TWO_64
    {
      assert Inv(db);
      CreateKeepsInv(db, target, max, retry, id);
    }

    /** CreateSubtask: select, insert the task, then its members one by one; all or nothing. */
    method CreateSubtask(target: nat, max: int, retryDeferred: bool) returns (r: Result<TaskId, LedgerError>)
      requires Valid()
      modifies `tasks, `members, `progress, `nextId
      ensures Valid()
      ensures match Ledger.Create(old(View()), target, max, retryDeferred, old(nextId))
              case Ok(Existing(t)) => r == Ok(t) && View() == old(View())
              case Ok(Fresh(_, db)) => r == Ok(old(nextId)) && View() == db
              case Err(e) => r == Err(e) && View() == old(View())
    {
      CreateKeepsSound(View(), target, max, retryDeferred, nextId);
      r := AllocateBatch(target, max, retryDeferred);
    }

    /** The statements of CreateSubtask. */
    method AllocateBatch(target: nat, max: int, retryDeferred: bool) returns (r: Result<TaskId, LedgerError>)
      requires forall o :: o in scan ==> scan[o].payload < TWO_64
      modifies `tasks, `members, `progress, `nextId
      ensures match Ledger.Create(old(View()), target, max, retryDeferred, old(nextId))
              case Ok(Existing(t)) => r == Ok(t) && View() == old(View()) && nextId == old(nextId)
              case Ok(Fresh(_, db)) => r == Ok(old(nextId)) && View() == db && nextId == old(nextId) + 1
                                       && tasks.Keys == old(tasks.Keys) + {old(nextId)}
              case Err(e) => r == Err(e) && View() == old(View()) && nextId == old(nextId)
    {
      if target == 0 || max <= 0 || max > 100000 {
        return Err(BadRequest);
      }
      if meta.None? || meta.value.scan != Complete {
        return Err(ScanIncomplete);
      }
      if !NoHold(View()) {
        return Err(LedgerError.SafetyHold);
      }
      var current := ResolveCurrent(View(), 0);
      if current.Ok? {
        return Ok(current.value);
      }
      if current.error != NoCurrentTask {
        return Err(current.error);
      }
      if HasLegacyResults(View()) {
        return Err(LegacyResults);
      }
      var candidates := Candidates(View(), retryDeferred, max);
      CandidatesAreSnapshots(View(), retryDeferred, max);
      var picked := SelectCapacity(candidates, target, max);
      if picked.Err? {
        return Err(SizeOverflow);
      }
      var (selected, total) := picked.value;
      if selected == [] {
        return Err(NoUnassigned);
      }
      var id := InsertTask(target, selected, total, retryDeferred);
      return Ok(id);
    }

    /** The transaction of CreateSubtask: the task under the next number, and its members. */
    method InsertTask(target: nat, selected: seq<ScanRow>, total: nat, retryDeferred: bool) returns (id: TaskId)
      requires total == Payload(selected)
      modifies `tasks, `members, `progress, `nextId
      ensures id == old(nextId) && nextId == id + 1 && tasks.Keys == old(tasks.Keys) + {id}
      ensures View() == Allocate(old(View()), target, retryDeferred, id, selected)
    {
      id := nextId;
      var rows, results := InsertMembers(id, selected, retryDeferred);
      tasks := tasks[id := Task(target, |selected|, total, selected, Ready, "", None, 1, false, false)];
      members, progress, nextId := rows, results, id + 1;
    }

    lemma CandidatesAreSnapshots(db: Db, retry: bool, max: nat)
      requires forall o :: o in db.scan ==> db.scan[o].payload < TWO_64
      ensures Fits(Candidates(db, retry, max))
    {
      var rows, q := Candidates(db, retry, max), Keyset.Sorted(Pool(db, retry));
      assert forall i :: 0 <= i < |q| ==> q[i] in Keyset.Elements(q);
      forall i | 0 <= i < |rows| ensures rows[i].payload < TWO_64 {
        assert Keyset.Take(q, max)[i] == q[i] && rows[i] == RowOf(db.scan, q[i]);
      }
    }

    /** The member rows of a new task; a retried object's result becomes a failed one. */
    method InsertMembers(id: TaskId, selected: seq<ScanRow>, retryDeferred: bool)
      returns (rows: map<RowKey, Member>, results: map<Oid, Progress>)
      ensures rows == members + NewMembers(id, Oids(selected))
      ensures results == if retryDeferred then Requeued(progress, Oids(selected)) else progress
    {
      rows, results := members, progress;
      assert rows == members + NewMembers(id, Oids([]));
      assert retryDeferred ==> results == Requeued(progress, Oids([]));
      for i := 0 to |selected|
        invariant rows == members + NewMembers(id, Oids(selected[..i]))
        invariant results == if retryDeferred then Requeued(progress, Oids(selected[..i])) else progress
      {
        var o := selected[i].oid;
        OneMoreOid(selected, i);
        OneMoreMember(members, id, Oids(selected[..i]), o);
        rows := rows[(id, o) := Member(false, 0, Check.Pending)];
        if retryDeferred && o in results {
          results := results[o := results[o].(status := Failed)];
        }
      }
      assert selected[..|selected|] == selected;
    }

    lemma OneMoreOid(rows: seq<ScanRow>, i: nat)
      requires i < |rows|
      ensures Oids(rows[..i + 1]) == Oids(rows[..i]) + {rows[i].oid}
    {
      assert rows[..i + 1] == rows[..i] + [rows[i]];
    }

    lemma OneMoreMember(was: map<RowKey, Member>, id: TaskId, oids: set<Oid>, o: Oid)
      ensures was + NewMembers(id, oids + {o})
              == (was + NewMembers(id, oids))[(id, o) := Member(false, 0, Check.Pending)]
    {
    }

    // -------------------------------------------------------------- purge

    /** Claimable objects beyond a page of their rows: only if the page is full, and behind its last row. */
    ghost predicate Beyond(page: seq<ScanRow>, limit: nat, o: Oid) {
      |page| == limit && (page == [] || page[|page| - 1].oid < o)
    }

    lemma PageComplete(db: Db, id: TaskId, after: Oid, limit: nat, q: seq<Oid>)
      requires q == Keyset.Page(ClaimableOids(db, id), after, limit) && forall i :: 0 <= i < |q| ==> q[i] in db.scan
      ensures forall o :: Claimable(db, id, o) && after < o ==>
                            o in Oids(RowsOf(db.scan, q)) || Beyond(RowsOf(db.scan, q), limit, o)
    {
      OidsOfRows(db.scan, q);
      if 0 < limit {
        Keyset.PageIsExact(ClaimableOids(db, id), after, limit);
      }
      forall o | Claimable(db, id, o) && after < o
        ensures o in Oids(RowsOf(db.scan, q)) || Beyond(RowsOf(db.scan, q), limit, o)
      {
        assert (id, o) in db.members;
        assert o in Keyset.Above(ClaimableOids(db, id), after);
      }
    }

    /**
     One page of what a purge run still has to process: claimable objects above the cursor, in
     object order, as the list describes them, and none left out before the end of a full page.
     */
    function ClaimSubtask(id: TaskId, after: Oid, limit: nat): (page: seq<ScanRow>)
      reads this
      ensures |page| <= limit && InObjectOrder(page) && FromScan(scan, page)
      ensures forall i :: 0 <= i < |page| ==> Claimable(View(), id, page[i].oid) && after < page[i].oid
      ensures forall o :: Claimable(View(), id, o) && after < o ==> o in Oids(page) || Beyond(page, limit, o)
    {
      var q := Keyset.Page(ClaimableOids(View(), id), after, limit);
      PageComplete(View(), id, after, limit, q);
      RowsOf(scan, q)
    }

    /** Residue markers are turned into failed results before the generation moves on. */
    method BeginPurge(t: TaskId) returns (err: Option<LedgerError>)
      requires Valid() && t in tasks
      modifies `progress, `tasks
      ensures Valid()
      ensures Outcome(Ledger.BeginPurge(old(View()), t), old(View()), View(), err)
      ensures err != Some(ManifestChanged)
    {
      PurgeOpens(View(), t);
      err := OpenPass(t);
    }

    /** In a sound ledger no manifest check fails. */
    lemma NoManifestRefusal(db: Db, t: TaskId, restart: bool)
      requires Manifests(db) && t in db.tasks
      ensures Ledger.BeginPurge(db, t) != Err(ManifestChanged)
      ensures Ledger.BeginVerify(db, t, restart) != Err(ManifestChanged)
    {
      ManifestAccepted(db, t);
    }

    lemma PurgeOpens(db: Db, t: TaskId)
      requires Sound(db) && t in db.tasks
      ensures match Ledger.BeginPurge(db, t)
              case Ok(after) => Sound(after)
              case Err(e) => e != ManifestChanged
    {
      assert Inv(db);
      BeginPurgeKeepsInv(db, t);
      NoManifestRefusal(db, t, false);
    }

    /** The statements of BeginPurge. */
    method OpenPass(t: TaskId) returns (err: Option<LedgerError>)
      requires t in tasks
      modifies `progress, `tasks
      ensures tasks.Keys == old(tasks.Keys)
      ensures Outcome(Ledger.BeginPurge(old(View()), t), old(View()), View(), err)
    {
      var s := tasks[t];
      if s.done || s.holdReason != "" {
        return Some(TaskClosed);
      }
      if !NoHold(View()) {
        return Some(LedgerError.SafetyHold);
      }
      if !ManifestOk(View(), t) {
        return Some(ManifestChanged);
      }
      var again := ResidueOids(View(), t);
      progress := map o | o in progress :: if o in again then progress[o].(status := Failed) else progress[o];
      PutTask(t, s.(phase := Purge, generation := s.generation + 1));
      return None;
    }

    /** The result of a successful attempt and the removal of a stale check, together. */
    method DoneSubtask(t: TaskId, o: Oid, keys: nat, bytes: nat) returns (err: Option<LedgerError>)
      requires Valid() && t in tasks && !tasks[t].done
      modifies `progress, `members
      ensures Valid()
      ensures Outcome(RecordDone(old(View()), t, o, keys, bytes), old(View()), View(), err)
    {
      RecordDoneKeepsInv(View(), t, o, keys, bytes);
      err := WriteDone(t, o, keys, bytes);
    }

    /** The statements of DoneSubtask. */
    method WriteDone(t: TaskId, o: Oid, keys: nat, bytes: nat) returns (err: Option<LedgerError>)
      modifies `progress, `members
      ensures Outcome(RecordDone(old(View()), t, o, keys, bytes), old(View()), View(), err)
    {
      if (t, o) !in members || members[(t, o)].deferred {
        return Some(LedgerError.NotMember);
      }
      if o in progress {
        progress := progress[o := Progress(Status.Done, progress[o].keys + keys, progress[o].bytes + bytes)];
      } else {
        progress := progress[o := Progress(Status.Done, keys, bytes)];
      }
      members := members[(t, o) := members[(t, o)].(generation := 0, check := Check.Pending)];
      return None;
    }

    /** The result of a failed attempt, still crediting what it deleted. */
    method Fail(t: TaskId, o: Oid, keys: nat, bytes: nat) returns (err: Option<LedgerError>)
      requires Valid() && t in tasks && !tasks[t].done
      modifies `progress
      ensures Valid()
      ensures Outcome(RecordFail(old(View()), t, o, keys, bytes), old(View()), View(), err)
    {
      RecordFailKeepsInv(View(), t, o, keys, bytes);
      err := WriteFailure(t, o, keys, bytes);
    }

    /** The statements of Fail. */
    method WriteFailure(t: TaskId, o: Oid, keys: nat, bytes: nat) returns (err: Option<LedgerError>)
      modifies `progress
      ensures Outcome(RecordFail(old(View()), t, o, keys, bytes), old(View()), View(), err)
    {
      if (t, o) !in members || members[(t, o)].deferred {
        return Some(LedgerError.NotMember);
      }
      if o in progress {
        progress := progress[o := Progress(Failed, progress[o].keys + keys, progress[o].bytes + bytes)];
      } else {
        progress := progress[o := Progress(Failed, keys, bytes)];
      }
      return None;
    }

    /** SubCounts: one pass over the rows of the task. */
    method CountRows(t: TaskId) returns (total: nat, unfinished: nat, deferred: nat, verified: nat)
      ensures var c := Counts(View(), t);
              total == c.total && unfinished == c.pending + c.failed && deferred == c.deferred && verified == c.verified
    {
      total, unfinished, deferred, verified := 0, 0, 0, 0;
      var db := View();
      var left := Rows(db, t);
      ghost var rows, seen: set<RowKey> := left, {};
      while left != {}
        invariant left <= rows && seen == rows - left
        invariant Tallied(db, seen, total, unfinished, deferred, verified)
        decreases left
      {
        var k :| k in left;
        OneMoreRow(db, seen, k, total, unfinished, deferred, verified);
        var m := members[k];
        total := total + 1;
        deferred := deferred + if m.deferred then 1 else 0;
        unfinished := unfinished + if !m.deferred && (k.1 !in progress || progress[k.1].status == Failed) then 1 else 0;
        verified := verified + if !m.deferred && Passed(db, k) then 1 else 0;
        Remaining(rows, left, k);
        left, seen := left - {k}, seen + {k};
      }
      assert seen == rows;
      CountsMatch(db, t);
    }

    lemma Remaining(rows: set<RowKey>, left: set<RowKey>, k: RowKey)
      requires k in left && left <= rows
      ensures rows - (left - {k}) == rows - left + {k}
    {
    }

    /** The four counters of the rows read so far. */
    ghost predicate Tallied(db: Db, seen: set<RowKey>, total: nat, unfinished: nat, deferred: nat, verified: nat) {
      && total == |seen| && deferred == |Matching(seen, IsDeferred(db))|
      && unfinished == |Matching(seen, IsPending(db))| + |Matching(seen, IsFailed(db))|
      && verified == |Matching(seen, IsVerified(db))|
    }

    lemma OneMoreRow(db: Db, seen: set<RowKey>, k: RowKey, total: nat, unfinished: nat, deferred: nat, verified: nat)
      requires k in db.members && k !in seen && Tallied(db, seen, total, unfinished, deferred, verified)
      ensures var m := db.members[k];
              Tallied(db, seen + {k}, total + 1,
                      unfinished + (if !m.deferred && (k.1 !in db.progress
                            || db.progress[k.1].status == Failed) then 1 else 0),
                      deferred + (if m.deferred then 1 else 0),
                      verified + (if !m.deferred && Passed(db, k) then 1 else 0))
    {
      OneMoreMatch(seen, k, IsDeferred(db));
      OneMoreMatch(seen, k, IsPending(db));
      OneMoreMatch(seen, k, IsFailed(db));
      OneMoreMatch(seen, k, IsVerified(db));
    }

    ghost function Matching(s: set<RowKey>, p: RowKey -> bool): set<RowKey> {
      set k | k in s && p(k)
    }

    ghost function IsDeferred(db: Db): RowKey -> bool {
      k => k in db.members && db.members[k].deferred
    }

    ghost function IsPending(db: Db): RowKey -> bool {
      k => k in db.members && !db.members[k].deferred && k.1 !in db.progress
    }

    ghost function IsFailed(db: Db): RowKey -> bool {
      k => k in db.members && !db.members[k].deferred && k.1 in db.progress && db.progress[k.1].status == Failed
    }

    ghost function IsVerified(db: Db): RowKey -> bool {
      k => k in db.members && !db.members[k].deferred && Passed(db, k)
    }

    lemma OneMoreMatch(s: set<RowKey>, k: RowKey, p: RowKey -> bool)
      requires k !in s
      ensures |s + {k}| == |s| + 1
      ensures |Matching(s + {k}, p)| == |Matching(s, p)| + if p(k) then 1 else 0
    {
      assert Matching(s + {k}, p) == Matching(s, p) + if p(k) then {k} else {};
    }

    lemma CountsMatch(db: Db, t: TaskId)
      ensures var c, rows := Counts(db, t), Rows(db, t);
              && c.total == |rows| && c.deferred == |Matching(rows, IsDeferred(db))|
              && c.pending == |Matching(rows, IsPending(db))| && c.failed == |Matching(rows, IsFailed(db))|
              && c.verified == |Matching(rows, IsVerified(db))|
    {
      var rows := Rows(db, t);
      assert Matching(rows, IsDeferred(db)) == set k | k in rows && db.members[k].deferred;
      assert Matching(rows, IsPending(db)) == set k | k in rows && !db.members[k].deferred && k.1 !in db.progress;
      assert Matching(rows, IsFailed(db))
          == set k | k in rows && !db.members[k].deferred && k.1 in db.progress && db.progress[k.1].status == Failed;
      assert Matching(rows, IsVerified(db)) == set k | k in rows && !db.members[k].deferred && Passed(db, k);
    }

    method CompletePurge(t: TaskId, count: nat) returns (err: Option<LedgerError>)
      requires Valid() && t in tasks
      modifies `tasks
      ensures Valid()
      ensures Outcome(Ledger.CompletePurge(old(View()), t, count), old(View()), View(), err)
    {
      MilestoneKeepsSound(View(), t, count);
      err := MarkPurged(t, count);
    }

    lemma MilestoneKeepsSound(db: Db, t: TaskId, count: nat)
      requires Sound(db)
      ensures Ledger.CompletePurge(db, t, count).Ok? ==> Sound(Ledger.CompletePurge(db, t, count).value)
    {
      assert Inv(db);
      CompletePurgeKeepsInv(db, t, count);
    }

    /** The statements of CompletePurge. */
    method MarkPurged(t: TaskId, count: nat) returns (err: Option<LedgerError>)
      requires t in tasks
      modifies `tasks
      ensures tasks.Keys == old(tasks.Keys)
      ensures Outcome(Ledger.CompletePurge(old(View()), t, count), old(View()), View(), err)
    {
      var total, unfinished, _, _ := CountRows(t);
      if total == 0 || total != count || unfinished > 0 {
        return Some(DeletionIncomplete);
      }
      var s := tasks[t];
      if s.done || s.holdReason != "" {
        return Some(NotMarked);
      }
      PutTask(t, s.(purged := true, phase := Purge));
      return None;
    }

    // -------------------------------------------------------------- hold, defer, resume

    method Hold(t: TaskId, oid: Option<Oid>, reason: string)
      requires Valid()
      modifies `tasks
      ensures Valid() && View() == Ledger.Hold(old(View()), t, oid, reason)
    {
      HoldKeepsInv(View(), t, oid, reason);
      var text := if |reason| > REASON_LIMIT then reason[..REASON_LIMIT] else reason;
      if t in tasks && !tasks[t].done {
        PutTask(t, tasks[t].(holdReason := text, holdOid := oid));
      }
    }

    /** DeferObject: the decision commits first; if nothing is left to process, the milestone follows. */
    method DeferObject(t: TaskId, o: Oid, reason: string) returns (err: Option<LedgerError>)
      requires Valid() && t in tasks
      modifies `tasks, `members, `audit
      ensures Valid()
      ensures match Defer(old(View()), t, o, reason)
              case Err(e) => err == Some(e) && View() == old(View())
              case Ok(db) => err == None && View() == if AllProcessed(db, t) then Finished(db, t) else db
    {
      ghost var was := View();
      err := SetAside(t, o, reason);
      if err.Some? {
        return;
      }
      DeferKeepsInv(was, t, o, reason);
      DeferReleases(was, t, o, reason);
      MilestoneFollows(View(), t);
      var _, unfinished, _, _ := CountRows(t);
      if unfinished == 0 {
        err := CompletePurge(t, tasks[t].objectCount);
      }
    }

    /** The milestone of a deletion pass. */
    ghost function Finished(db: Db, t: TaskId): Db {
      if t in db.tasks then WithTask(db, t, db.tasks[t].(purged := true, phase := Purge)) else db
    }

    lemma DeferReleases(was: Db, t: TaskId, o: Oid, reason: string)
      requires Defer(was, t, o, reason).Ok?
      ensures var db := Defer(was, t, o, reason).value;
              t in db.tasks && !db.tasks[t].done && !Held(db.tasks[t])
    {
    }

    /** Once a deferral is committed, nothing but an unprocessed member stands against the milestone. */
    lemma MilestoneFollows(db: Db, t: TaskId)
      requires Inv(db) && t in db.tasks && !db.tasks[t].done && !Held(db.tasks[t])
      ensures Counts(db, t).pending + Counts(db, t).failed == 0 <==> AllProcessed(db, t)
      ensures AllProcessed(db, t) ==> Ledger.CompletePurge(db, t, db.tasks[t].objectCount) == Ok(Finished(db, t))
    {
      CountsProcessed(db, t);
      LedgerTheorems.CompletePurgeExact(db, t);
    }

    /** The transaction of the decision. */
    method SetAside(t: TaskId, o: Oid, reason: string) returns (err: Option<LedgerError>)
      requires t in tasks
      modifies `tasks, `members, `audit
      ensures tasks.Keys == old(tasks.Keys)
      ensures Outcome(Defer(old(View()), t, o, reason), old(View()), View(), err)
    {
      var s := tasks[t];
      if Blank(reason) || |reason| > REASON_LIMIT {
        return Some(BadReason);
      }
      if s.done {
        return Some(CompletedTask);
      }
      if s.holdReason != "" && (s.holdOid.None? || s.holdOid.value != o) {
        return Some(UnrelatedHold);
      }
      if (t, o) !in members || members[(t, o)].deferred {
        return Some(LedgerError.NotMember);
      }
      members := members[(t, o) := members[(t, o)].(deferred := true)];
      audit := audit + [Deferral(t, o, reason)];
      if s.holdReason != "" {
        tasks := tasks[t := s.(holdReason := "", holdOid := None)];
      }
      return None;
    }

    method ResumeSafety(t: TaskId, reason: string) returns (err: Option<LedgerError>)
      requires Valid() && t in tasks
      modifies `tasks, `audit
      ensures Valid()
      ensures Outcome(Resume(old(View()), t, reason), old(View()), View(), err)
    {
      ResumeKeepsInv(View(), t, reason);
      var s := tasks[t];
      if Blank(reason) {
        return Some(BadReason);
      }
      if s.holdReason == "" {
        return Some(NotHeld);
      }
      audit := audit + [Resumption(t, reason + "; previous hold: " + s.holdReason)];
      tasks := tasks[t := s.(holdReason := "", holdOid := None)];
      return None;
    }

    // -------------------------------------------------------------- verify

    method BeginVerify(t: TaskId, restart: bool) returns (err: Option<LedgerError>)
      requires Valid() && t in tasks
      modifies `tasks
      ensures Valid()
      ensures Outcome(Ledger.BeginVerify(old(View()), t, restart), old(View()), View(), err)
      ensures err != Some(ManifestChanged)
    {
      VerificationOpens(View(), t, restart);
      err := OpenVerification(t, restart);
    }

    lemma VerificationOpens(db: Db, t: TaskId, restart: bool)
      requires Sound(db) && t in db.tasks
      ensures match Ledger.BeginVerify(db, t, restart)
              case Ok(after) => Sound(after)
              case Err(e) => e != ManifestChanged
    {
      assert Inv(db);
      BeginVerifyKeepsInv(db, t, restart);
      NoManifestRefusal(db, t, restart);
    }

    /** The statements of BeginVerify. */
    method OpenVerification(t: TaskId, restart: bool) returns (err: Option<LedgerError>)
      requires t in tasks
      modifies `tasks
      ensures tasks.Keys == old(tasks.Keys)
      ensures Outcome(Ledger.BeginVerify(old(View()), t, restart), old(View()), View(), err)
    {
      var s := tasks[t];
      if s.holdReason != "" {
        return Some(LedgerError.SafetyHold);
      }
      if s.done && !restart {
        return None;
      }
      if !ManifestOk(View(), t) {
        return Some(ManifestChanged);
      }
      var _, unfinished, _, _ := CountRows(t);
      if unfinished > 0 {
        return Some(Unprocessed);
      }
      var generation := if restart then s.generation + 1 else s.generation;
      PutTask(t, s.(phase := Verify, done := false, purged := true, generation := generation));
      return None;
    }

    /** One page of the members that have not passed in this generation. */
    function VerifyPending(t: TaskId, generation: nat, after: Oid, limit: nat): seq<Oid>
      reads this
    {
      Keyset.Page(UnverifiedOids(View(), t, generation), after, limit)
    }

    lemma RecordKeepsSound(db: Db, t: TaskId, generation: nat, o: Oid, check: Check)
      requires Sound(db) && t in db.tasks && !db.tasks[t].done && generation == db.tasks[t].generation
      ensures Ledger.RecordVerify(db, t, generation, o, check).Ok? ==>
                Sound(Ledger.RecordVerify(db, t, generation, o, check).value)
    {
      assert Inv(db);
      RecordVerifyKeepsInv(db, t, generation, o, check);
    }

    method RecordVerify(t: TaskId, generation: nat, o: Oid, check: Check) returns (err: Option<LedgerError>)
      requires Valid() && t in tasks && !tasks[t].done && generation == tasks[t].generation
      modifies `members
      ensures Valid()
      ensures Outcome(Ledger.RecordVerify(old(View()), t, generation, o, check), old(View()), View(), err)
    {
      RecordKeepsSound(View(), t, generation, o, check);
      if check == Check.Pending {
        return Some(InvalidResult);
      }
      if (t, o) in members && !members[(t, o)].deferred {
        members := members[(t, o) := members[(t, o)].(generation := generation, check := check)];
      }
      return None;
    }

    method CompleteVerify(t: TaskId, generation: nat, count: nat) returns (err: Option<LedgerError>)
      requires Valid() && t in tasks
      modifies `tasks
      ensures Valid()
      ensures Outcome(Ledger.CompleteVerify(old(View()), t, generation, count), old(View()), View(), err)
    {
      CompleteVerifyKeepsInv(View(), t, generation, count);
      err := MarkDone(t, generation, count);
    }

    /** The statements of CompleteVerify. */
    method MarkDone(t: TaskId, generation: nat, count: nat) returns (err: Option<LedgerError>)
      requires t in tasks
      modifies `tasks
      ensures tasks.Keys == old(tasks.Keys)
      ensures Outcome(Ledger.CompleteVerify(old(View()), t, generation, count), old(View()), View(), err)
    {
      var total, unfinished, deferred, verified := CountRows(t);
      if total != count || unfinished > 0 || verified + deferred != total {
        return Some(VerificationIncomplete);
      }
      var s := tasks[t];
      if s.holdReason == "" && s.phase == Verify && s.generation == generation {
        PutTask(t, s.(done := true));
      }
      return if tasks[t].done then None else Some(NotFinalized);
    }
  }
}
