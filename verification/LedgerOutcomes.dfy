/**
 When each transaction goes through, what it refuses, and what it means for the objects: the
 other half of the invariants, which only say what a transaction that did go through keeps.
 */
module LedgerOutcomes {
  import opened Wrappers
  import opened Capacity
  import opened Ledger
  import opened LedgerInvariants
  import opened LedgerTheorems
  import Keyset

  // ---------------------------------------------------------------- task selection

  ghost predicate Least(s: set<TaskId>, t: TaskId) {
    t in s && forall u :: u in s ==> t <= u
  }

  lemma MinIsLeast(s: set<TaskId>, t: TaskId)
    requires s != {}
    ensures t == Keyset.Min(s) <==> Least(s, t)
  {
  }

  lemma OnlyElement(s: set<TaskId>, t: TaskId)
    requires t in s
    ensures |s| <= 1 <==> s == {t}
  {
    if |s| <= 1 {
      assert s == {t} + (s - {t});
      EmptySize(s - {t});
    }
  }

  lemma ResolveCurrentExact(db: Db, id: TaskId, t: TaskId)
    ensures ResolveCurrent(db, id) == Ok(t) <==> OpenTasks(db) == {t} && (id == 0 || id == t)
    ensures ResolveCurrent(db, id) == Err(NoCurrentTask) <==> OpenTasks(db) == {}
  {
    var found := OpenTasks(db);
    if found != {} {
      OnlyElement(found, Keyset.Min(found));
    }
  }

  /**
   A purge works on the task it was given, if that is not finished and is either complete with
   its first pass or the one open task; without a number on the one open task; and on nothing
   while anything is held.
   */
  lemma ResolvePurgeExact(db: Db, id: TaskId, t: TaskId)
    requires Milestones(db)
    ensures ResolvePurge(db, id) == Ok(t) <==>
              && NoHold(db) && t in db.tasks && !db.tasks[t].done
              && ((id == t != 0 && db.tasks[t].purged) || (OpenTasks(db) == {t} && (id == 0 || id == t)))
    ensures ResolvePurge(db, id) == Err(LedgerError.SafetyHold) <==> !NoHold(db)
    ensures NoHold(db) && id != 0 ==> (ResolvePurge(db, id) == Err(NoSuchTask) <==> id !in db.tasks)
    ensures NoHold(db) && id != 0 && id in db.tasks ==>
              (ResolvePurge(db, id) == Err(AlreadyVerified) <==> db.tasks[id].done)
  {
    ResolveCurrentExact(db, id, t);
    assert OpenTasks(db) == {t} ==> t in OpenTasks(db);
  }

  /** A verification works on the task it was given, else on the oldest one awaiting it. */
  lemma ResolveVerifyExact(db: Db, id: TaskId, t: TaskId)
    ensures ResolveVerify(db, id) == Ok(t) <==>
              if id != 0 then id == t && t in db.tasks
              else Least((set u | u in db.tasks && !db.tasks[u].done && db.tasks[u].purged), t)
    ensures id != 0 ==> (ResolveVerify(db, id) == Err(NoSuchTask) <==> id !in db.tasks)
    ensures id == 0 ==> (ResolveVerify(db, id) == Err(NoVerifyTask) <==>
                           forall u :: u in db.tasks && !db.tasks[u].done ==> !db.tasks[u].purged)
  {
    assert AwaitingVerify(db) == set u | u in db.tasks && !db.tasks[u].done && db.tasks[u].purged;
    if AwaitingVerify(db) != {} {
      MinIsLeast(AwaitingVerify(db), t);
    } else {
      assert forall u :: u in db.tasks && !db.tasks[u].done && db.tasks[u].purged ==> u in AwaitingVerify(db);
    }
  }

  /** An operator's decision goes to the task named, else to a held one, the open one, the oldest unverified one. */
  lemma ResolveAdminExact(db: Db, id: TaskId, t: TaskId)
    ensures ResolveAdmin(db, id) == Ok(t) <==>
              if id != 0 then id == t && t in db.tasks
              else if exists u :: u in db.tasks && !db.tasks[u].done && Held(db.tasks[u])
              then Least((set u | u in db.tasks && !db.tasks[u].done && Held(db.tasks[u])), t)
              else if OpenTasks(db) != {} then OpenTasks(db) == {t}
              else Least(AwaitingVerify(db), t)
  {
    assert HeldTasks(db) == set u | u in db.tasks && !db.tasks[u].done && Held(db.tasks[u]);
    if HeldTasks(db) != {} {
      MinIsLeast(HeldTasks(db), t);
      assert Keyset.Min(HeldTasks(db)) in HeldTasks(db);
    } else {
      assert forall u :: u in db.tasks && !db.tasks[u].done && Held(db.tasks[u]) ==> u in HeldTasks(db);
      ResolveCurrentExact(db, 0, t);
      ResolveVerifyExact(db, 0, t);
    }
  }

  // ---------------------------------------------------------------- ALL_DONE

  lemma ClearedIsAssigned(db: Db, o: Oid, t: TaskId)
    requires Cleared(db, o, t)
    ensures Assigned(db, o) && o !in Unassigned(db)
  {
    assert (t, o) in db.members;
  }

  lemma ClearedIsResolved(db: Db, k: RowKey, t: TaskId)
    requires Inv(db) && k in db.members && Cleared(db, k.1, t)
    ensures k !in Unresolved(db)
  {
    ActiveIsNewest(db, t, k.1);
    assert (t, k.1) in db.members;
    assert k.0 == t ==> k == (t, k.1);
  }

  lemma NothingOutstanding(db: Db)
    requires Inv(db) && forall o :: o in db.scan ==> exists t :: Cleared(db, o, t)
    ensures Outstanding(db) == (0, 0)
  {
    forall o | o in db.scan ensures o !in Unassigned(db) {
      var t :| Cleared(db, o, t);
      ClearedIsAssigned(db, o, t);
    }
    forall k | k in db.members ensures k !in Unresolved(db) {
      var t :| Cleared(db, k.1, t);
      ClearedIsResolved(db, k, t);
    }
    assert Unassigned(db) == {} && Unresolved(db) == {};
  }

  ghost predicate AllCleared(db: Db) {
    forall o :: o in db.scan ==> exists t :: Cleared(db, o, t)
  }

  lemma ClearedIsReported(db: Db)
    requires Inv(db) && Sealed(db) && AllCleared(db) && forall t :: t in db.tasks ==> db.tasks[t].done
    ensures AllDone(db, false)
  {
    NothingOutstanding(db);
    var o :| o in db.scan;
    var t :| Cleared(db, o, t);
  }

  /**
   ALL_DONE is reported exactly when no command runs, the list is sealed, every task is
   finished, and every listed object is processed and passed in a finished task.
   */
  lemma AllDoneExact(db: Db, locked: bool)
    requires Inv(db)
    ensures AllDone(db, locked) <==>
              !locked && Sealed(db) && AllCleared(db) && forall t :: t in db.tasks ==> db.tasks[t].done
  {
    if AllDone(db, locked) {
      AllDoneIsBacked(db, locked);
    }
    if !locked && Sealed(db) && AllCleared(db) && forall t :: t in db.tasks ==> db.tasks[t].done {
      ClearedIsReported(db);
    }
  }

  // ---------------------------------------------------------------- binding and scan

  /** A database serves the binding it has, or any one while it is empty; nothing else changes. */
  lemma BindExact(db: Db, b: Binding)
    ensures Bind(db, b).Ok? <==> if db.meta.Some? then db.meta.value.binding == b
                                 else db.scan == map[] && db.progress == map[]
    ensures Bind(db, b).Ok? ==>
              var after := Bind(db, b).value;
              && after == db.(meta := after.meta) && after.meta.Some? && after.meta.value.binding == b
              && (db.meta.Some? ==> after == db) && (db.meta.None? ==> !Sealed(after))
  {
  }

  /** A list is opened for reading exactly while it is not sealed and nothing is allocated; its rows stay. */
  lemma BeginScanExact(db: Db)
    ensures BeginScan(db).Ok? <==> !Sealed(db) && db.tasks == map[]
    ensures BeginScan(db).Ok? ==>
              var after := BeginScan(db).value;
              after == db.(meta := after.meta) && !Sealed(after)
              && (db.meta.Some? ==> after.meta == Some(Meta(db.meta.value.binding, Running, None)))
  {
  }

  /** A list is sealed exactly if it has as many rows as expected, and some; its rows stay. */
  lemma FinishScanExact(db: Db, rows: nat)
    ensures FinishScan(db, rows).Ok? <==> 0 < rows == |db.scan|
    ensures FinishScan(db, rows).Ok? && db.meta.Some? ==>
              FinishScan(db, rows).value == db.(meta := Some(Meta(db.meta.value.binding, Complete, Some(rows))))
  {
  }

  // ---------------------------------------------------------------- manifests and counts

  lemma JoinIsOrdered(db: Db, s: set<Oid>)
    ensures InObjectOrder(ScanRows(db, s)) && FromScan(db.scan, ScanRows(db, s))
    ensures Oids(ScanRows(db, s)) == s * db.scan.Keys
  {
    var q := Keyset.Sorted(s * db.scan.Keys);
    assert forall i :: 0 <= i < |q| ==> q[i] in Keyset.Elements(q);
    RowsInOrder(db.scan, q);
    OidsOfRows(db.scan, q);
  }

  lemma JoinOfRows(db: Db, s: set<Oid>, rows: seq<ScanRow>)
    requires InObjectOrder(rows) && FromScan(db.scan, rows) && Oids(rows) == s * db.scan.Keys
    ensures ScanRows(db, s) == rows
  {
    JoinGivesManifest(db, rows);
    assert Oids(rows) * db.scan.Keys == s * db.scan.Keys;
  }

  /** The manifest check passes exactly if the members that are listed are the recorded rows, one for one. */
  lemma ManifestOkExact(db: Db, t: TaskId)
    requires t in db.tasks
    ensures var s := db.tasks[t];
            ManifestOk(db, t) <==>
              && |s.digest| == s.objectCount && InObjectOrder(s.digest) && FromScan(db.scan, s.digest)
              && Oids(s.digest) == MemberOids(db, t) * db.scan.Keys
  {
    var digest := db.tasks[t].digest;
    JoinIsOrdered(db, MemberOids(db, t));
    if InObjectOrder(digest) && FromScan(db.scan, digest) && Oids(digest) == MemberOids(db, t) * db.scan.Keys {
      JoinOfRows(db, MemberOids(db, t), digest);
    }
  }

  /** The assignments of a task, by what became of them. */
  ghost function InClass(db: Db, t: TaskId, c: RowKey -> bool): set<RowKey> {
    set k | k in Rows(db, t) && c(k)
  }

  ghost function Aside(db: Db): RowKey -> bool {
    k => k in db.members && db.members[k].deferred
  }

  ghost function Waiting(db: Db): RowKey -> bool {
    k => k in db.members && !db.members[k].deferred && k.1 !in db.progress
  }

  ghost function Unsuccessful(db: Db): RowKey -> bool {
    k => k in db.members && !db.members[k].deferred && k.1 in db.progress && db.progress[k.1].status == Failed
  }

  ghost function Successful(db: Db): RowKey -> bool {
    k => k in db.members && !db.members[k].deferred && Processed(db, k.1)
  }

  /** Checked in the present generation of its task, with this result. */
  ghost function WithCheck(db: Db, check: Check): RowKey -> bool {
    k => k in db.members && !db.members[k].deferred && k.0 in db.tasks
         && db.members[k].generation == db.tasks[k.0].generation && db.members[k].check == check
  }

  lemma SplitThree<T>(a: set<T>, b: set<T>, c: set<T>)
    requires a !! b && a !! c && b !! c
    ensures |a + b + c| == |a| + |b| + |c|
  {
    SplitSize(a, b);
    SplitSize(a + b, c);
  }

  lemma SplitFour<T>(a: set<T>, b: set<T>, c: set<T>, d: set<T>)
    requires a !! b && a !! c && a !! d && b !! c && b !! d && c !! d
    ensures |a + b + c + d| == |a| + |b| + |c| + |d|
  {
    SplitThree(a, b, c);
    SplitSize(a + b + c, d);
  }

  lemma ProgressCounts(db: Db, t: TaskId)
    ensures var c := Counts(db, t);
            && c.deferred == |InClass(db, t, Aside(db))| && c.pending == |InClass(db, t, Waiting(db))|
            && c.failed == |InClass(db, t, Unsuccessful(db))| && c.processed == |InClass(db, t, Successful(db))|
  {
    assert InClass(db, t, Aside(db)) == set k | k in Rows(db, t) && db.members[k].deferred;
    assert InClass(db, t, Waiting(db)) == set k | k in Rows(db, t) && !db.members[k].deferred && k.1 !in db.progress;
    assert InClass(db, t, Unsuccessful(db))
        == set k | k in Rows(db, t) && !db.members[k].deferred && k.1 in db.progress
                   && db.progress[k.1].status == Failed;
    assert InClass(db, t, Successful(db))
        == set k | k in Rows(db, t) && !db.members[k].deferred && Processed(db, k.1);
  }

  lemma CheckCounts(db: Db, t: TaskId)
    requires t in db.tasks
    ensures var c := Counts(db, t);
            && c.verified == |InClass(db, t, WithCheck(db, Pass))|
            && c.residue == |InClass(db, t, WithCheck(db, Residue))|
            && c.errors == |InClass(db, t, WithCheck(db, Error))|
  {
    assert InClass(db, t, WithCheck(db, Pass))
        == set k | k in Rows(db, t) && !db.members[k].deferred && Passed(db, k);
    assert InClass(db, t, WithCheck(db, Residue))
        == set k | k in Rows(db, t) && !db.members[k].deferred && t in db.tasks
                   && db.members[k].generation == db.tasks[t].generation && db.members[k].check == Residue;
    assert InClass(db, t, WithCheck(db, Error))
        == set k | k in Rows(db, t) && !db.members[k].deferred && t in db.tasks
                   && db.members[k].generation == db.tasks[t].generation && db.members[k].check == Error;
  }

  lemma ClassesApart(db: Db, t: TaskId)
    ensures InClass(db, t, Aside(db)) !! InClass(db, t, Waiting(db))
    ensures InClass(db, t, Aside(db)) !! InClass(db, t, Unsuccessful(db))
    ensures InClass(db, t, Aside(db)) !! InClass(db, t, Successful(db))
    ensures InClass(db, t, Waiting(db)) !! InClass(db, t, Unsuccessful(db))
    ensures InClass(db, t, Waiting(db)) !! InClass(db, t, Successful(db))
    ensures InClass(db, t, Unsuccessful(db)) !! InClass(db, t, Successful(db))
  {
  }

  lemma ClassesCover(db: Db, t: TaskId)
    ensures Rows(db, t) == InClass(db, t, Aside(db)) + InClass(db, t, Waiting(db))
                           + InClass(db, t, Unsuccessful(db)) + InClass(db, t, Successful(db))
  {
  }

  /** Every member is counted once: set aside, waiting, failed, or processed. */
  lemma CountsPartition(db: Db, t: TaskId)
    ensures var c := Counts(db, t); c.total == c.deferred + c.pending + c.failed + c.processed
  {
    ProgressCounts(db, t);
    ClassesApart(db, t);
    ClassesCover(db, t);
    SplitFour(InClass(db, t, Aside(db)), InClass(db, t, Waiting(db)),
              InClass(db, t, Unsuccessful(db)), InClass(db, t, Successful(db)));
  }

  /** The members checked in the present generation are counted by their results, and each once. */
  lemma ChecksPartition(db: Db, t: TaskId)
    requires t in db.tasks
    ensures var c := Counts(db, t);
            c.verified + c.residue + c.errors
            == |InClass(db, t, WithCheck(db, Pass)) + InClass(db, t, WithCheck(db, Residue))
                + InClass(db, t, WithCheck(db, Error))|
  {
    CheckCounts(db, t);
    SplitThree(InClass(db, t, WithCheck(db, Pass)), InClass(db, t, WithCheck(db, Residue)),
               InClass(db, t, WithCheck(db, Error)));
  }

  // ---------------------------------------------------------------- allocation

  lemma OpenIsReferred(db: Db, target: nat, max: nat, retry: bool, id: TaskId)
    requires 0 < target && 0 < max <= 100000 && Sealed(db) && NoHold(db)
    requires OpenTasks(db) != {} && |OpenTasks(db)| <= 1
    ensures Create(db, target, max, retry, id) == Ok(Existing(Keyset.Min(OpenTasks(db))))
  {
  }

  lemma ClosedIsAllotted(db: Db, target: nat, max: nat, retry: bool, id: TaskId)
    requires 0 < target && 0 < max <= 100000 && Sealed(db) && NoHold(db)
    requires OpenTasks(db) == {} && !HasLegacyResults(db)
    ensures Create(db, target, max, retry, id) == Allot(db, target, max, retry, id)
  {
    ResolveCurrentExact(db, 0, 0);
  }

  lemma CreateAfterGuards(db: Db, target: nat, max: nat, retry: bool, id: TaskId)
    requires Inv(db) && 0 < target && 0 < max <= 100000 && Sealed(db) && NoHold(db)
    ensures var r := Create(db, target, max, retry, id);
            r == if OpenTasks(db) == {} then Allot(db, target, max, retry, id)
                 else Ok(Existing(Keyset.Min(OpenTasks(db))))
  {
    OneOpenTask(db);
    LedgerIsSound(db);
    if OpenTasks(db) == {} {
      ClosedIsAllotted(db, target, max, retry, id);
    } else {
      OpenIsReferred(db, target, max, retry, id);
    }
  }

  /** Which way `task create` goes, in a sound ledger: refused, referred to the open task, or on to its candidates. */
  lemma CreateGuards(db: Db, target: nat, max: int, retry: bool, id: TaskId)
    requires Inv(db)
    ensures var r := Create(db, target, max, retry, id); var valid := 0 < target && 0 < max <= 100000;
            && (r == Err(BadRequest) <==> !valid)
            && (r == Err(ScanIncomplete) <==> valid && !Sealed(db))
            && (r == Err(LedgerError.SafetyHold) <==> valid && Sealed(db) && !NoHold(db))
            && ((r.Ok? && r.value.Existing?) <==> valid && Sealed(db) && NoHold(db) && OpenTasks(db) != {})
            && (r.Ok? && r.value.Existing? ==> OpenTasks(db) == {r.value.id})
  {
    if 0 < target && 0 < max <= 100000 && Sealed(db) && NoHold(db) {
      CreateAfterGuards(db, target, max, retry, id);
      OneOpenTask(db);
      if OpenTasks(db) != {} {
        OnlyElement(OpenTasks(db), Keyset.Min(OpenTasks(db)));
      }
    }
  }

  /** In a database that already holds results outside any batch, nothing is allocated. */
  lemma LegacyIsRefused(db: Db, target: nat, max: int, retry: bool, id: TaskId)
    requires 0 < target && 0 < max <= 100000 && Sealed(db) && NoHold(db) && OpenTasks(db) == {}
    ensures Create(db, target, max, retry, id) == Err(LegacyResults) <==>
              exists o :: o in db.progress && forall t: TaskId :: (t, o) !in db.members
  {
    ResolveCurrentExact(db, 0, 0);
    if o :| o in db.progress && forall t: TaskId :: (t, o) !in db.members {
      assert !Assigned(db, o);
    }
    if HasLegacyResults(db) {
      var o :| o in db.progress && !Assigned(db, o);
      assert forall t: TaskId :: (t, o) !in db.members;
    }
  }

  lemma AllocatedIsClaimable(db: Db, target: nat, retry: bool, id: TaskId, selected: seq<ScanRow>, o: Oid)
    requires o in Oids(selected) && o in db.scan && (!retry ==> o !in db.progress)
    ensures var after := Allocate(db, target, retry, id, selected); Claimable(after, id, o) && !Processed(after, o)
  {
    AllocatedRows(db, target, retry, id, selected);
    assert (id, o) in Allocate(db, target, retry, id, selected).members;
  }

  /** Whatever a new batch takes, a purge of it will process, retried objects included. */
  lemma SelectedAreClaimable(db: Db, target: nat, max: int, retry: bool, id: TaskId, o: Oid)
    requires Frozen(db) && NoStrays(db)
    requires var r := Create(db, target, max, retry, id); r.Ok? && r.value.Fresh? && o in Oids(r.value.selected)
    ensures var after := Create(db, target, max, retry, id).value.db;
            Claimable(after, id, o) && !Processed(after, o)
  {
    var selected := Create(db, target, max, retry, id).value.selected;
    CreateFacts(db, target, max, retry, id);
    assert o in Pool(db, retry);
    AllocatedIsClaimable(db, target, retry, id, selected, o);
  }

  // ---------------------------------------------------------------- purge

  /** A pass leaves out an active member exactly if its deletion stands and no check has found residue since. */
  lemma ClaimedUnlessDone(db: Db, t: TaskId, o: Oid)
    requires Frozen(db) && Active(db, t, o)
    ensures !Claimable(db, t, o) <==>
              o in db.progress && db.progress[o].status == Done && db.members[(t, o)].check != Residue
  {
    assert (t, o) in db.members;
  }

  /** A deletion pass starts on any unfinished task of a sound ledger unless something is held. */
  lemma BeginPurgeExact(db: Db, t: TaskId)
    requires Inv(db)
    ensures BeginPurge(db, t).Ok? <==> t in db.tasks && !db.tasks[t].done && NoHold(db)
    ensures BeginPurge(db, t) == Err(NoSuchTask) <==> t !in db.tasks
    ensures t in db.tasks ==>
              (BeginPurge(db, t) == Err(TaskClosed) <==> db.tasks[t].done || Held(db.tasks[t]))
  {
    if t in db.tasks {
      ManifestAccepted(db, t);
    }
  }

  /**
   It will process the members without a result or whose last check found residue, and it is
   from now on that their results and all checks of the task count.
   */
  lemma BeginPurgeMeans(db: Db, t: TaskId, o: Oid)
    requires Frozen(db) && Generations(db) && BeginPurge(db, t).Ok?
    ensures var after := BeginPurge(db, t).value;
            && (Claimable(after, t, o) <==>
                  Active(db, t, o) && (!Processed(db, o) || db.members[(t, o)].check == Residue))
            && (Claimable(after, t, o) ==> !Processed(after, o))
            && ((t, o) in after.members ==> !Passed(after, (t, o)))
            && (forall u :: u != t && (u, o) in after.members ==> (Passed(after, (u, o)) <==> Passed(db, (u, o))))
            && t in after.tasks && after.tasks[t].phase == Purge
  {
    var again := ResidueOids(db, t);
    assert Active(db, t, o) && db.members[(t, o)].check == Residue ==> o in again by {
      if Active(db, t, o) && db.members[(t, o)].check == Residue {
        assert (t, o) in db.members;
      }
    }
    ResidueIsActive(db, t);
    assert (t, o) in db.members ==> db.members[(t, o)].generation <= db.tasks[t].generation;
  }

  /** A completion is recorded if and only if its member is active; that is then processed, unchecked, and not due. */
  lemma RecordDoneExact(db: Db, t: TaskId, o: Oid, keys: nat, bytes: nat)
    requires t in db.tasks && 1 <= db.tasks[t].generation
    ensures RecordDone(db, t, o, keys, bytes).Ok? <==> Active(db, t, o)
    ensures RecordDone(db, t, o, keys, bytes).Ok? ==>
              var after := RecordDone(db, t, o, keys, bytes).value;
              && Processed(after, o) && !Claimable(after, t, o) && Active(after, t, o) && !Passed(after, (t, o))
              && after.members[(t, o)] == Member(false, 0, Pending) && after.tasks == db.tasks
              && (forall k :: k in db.members && k != (t, o) ==> after.members[k] == db.members[k])
              && (forall p :: p != o ==> (Claimable(after, t, p) <==> Claimable(db, t, p)))
  {
  }

  /** So is a failure; the member then stays to be claimed, and the check it had stays too. */
  lemma RecordFailExact(db: Db, t: TaskId, o: Oid, keys: nat, bytes: nat)
    ensures RecordFail(db, t, o, keys, bytes).Ok? <==> Active(db, t, o)
    ensures RecordFail(db, t, o, keys, bytes).Ok? ==>
              var after := RecordFail(db, t, o, keys, bytes).value;
              && !Processed(after, o) && o in after.progress && after.members == db.members
              && (Claimable(after, t, o) <==> o in db.scan)
              && (forall p :: p != o ==> (Claimable(after, t, p) <==> Claimable(db, t, p)))
  {
  }

  /** The deletion milestone changes the row of its task and nothing else, and ends a deletion pass. */
  lemma MilestoneMeans(db: Db, t: TaskId, count: nat)
    requires CompletePurge(db, t, count).Ok? && t in db.tasks
    ensures var after := CompletePurge(db, t, count).value;
            && after == db.(tasks := after.tasks) && after.tasks.Keys == db.tasks.Keys
            && (forall u :: u in db.tasks && u != t ==> after.tasks[u] == db.tasks[u])
            && after.tasks[t].purged && after.tasks[t].phase == Purge
            && after.tasks[t].(purged := false, phase := Ready) == db.tasks[t].(purged := false, phase := Ready)
            && |Rows(db, t)| == count > 0 && AllProcessed(db, t)
  {
    CountsProcessed(db, t);
  }

  /**
   A verification is finished only from the verified phase, in the generation it began in, and
   not while held; finishing it again changes nothing.
   */
  lemma VerifiedMeans(db: Db, t: TaskId, generation: nat, count: nat)
    requires t in db.tasks
    ensures var s := db.tasks[t]; var open := !Held(s) && s.phase == Verify && s.generation == generation;
            && (CompleteVerify(db, t, generation, count).Ok? <==>
                  (open || s.done) && |Rows(db, t)| == count && AllProcessed(db, t) && AllPassed(db, t))
            && (CompleteVerify(db, t, generation, count).Ok? ==>
                  CompleteVerify(db, t, generation, count).value
                  == if open then WithTask(db, t, s.(done := true)) else db)
  {
    CountsProcessed(db, t);
    CountsVerified(db, t);
  }

  /** A task without rows, or with more or fewer than recorded, is not marked, by command or by recovery. */
  lemma DamagedIsNotMarked(db: Db, t: TaskId)
    requires t in db.tasks && (|Rows(db, t)| != db.tasks[t].objectCount || |Rows(db, t)| == 0)
    ensures Recover(db).tasks[t] == db.tasks[t]
    ensures CompletePurge(db, t, db.tasks[t].objectCount) == Err(DeletionIncomplete)
    ensures |Rows(db, t)| != db.tasks[t].objectCount ==>
              forall g :: CompleteVerify(db, t, g, db.tasks[t].objectCount) == Err(VerificationIncomplete)
  {
  }

  // ---------------------------------------------------------------- hold, defer, resume

  /** A hold latches an unfinished task under the object it names, and touches nothing else. */
  lemma HoldExact(db: Db, t: TaskId, oid: Option<Oid>, reason: string)
    ensures var after := Hold(db, t, oid, reason);
            if t in db.tasks && !db.tasks[t].done then
              && after == db.(tasks := after.tasks) && after.tasks.Keys == db.tasks.Keys
              && (forall u :: u in db.tasks && u != t ==> after.tasks[u] == db.tasks[u])
              && after.tasks[t].holdOid == oid && (Held(after.tasks[t]) <==> reason != "")
              && after.tasks[t].holdReason <= reason
              && |after.tasks[t].holdReason| == (if |reason| <= REASON_LIMIT then |reason| else REASON_LIMIT)
              && after.tasks[t].(holdReason := "", holdOid := None) == db.tasks[t].(holdReason := "", holdOid := None)
            else after == db
  {
  }

  /**
   An active member is set aside for a stated reason, unless the task is finished or held for
   something else; a hold that names it is released with it.
   */
  lemma DeferExact(db: Db, t: TaskId, o: Oid, reason: string)
    ensures Defer(db, t, o, reason).Ok? <==>
              && Active(db, t, o) && t in db.tasks && !db.tasks[t].done
              && !Blank(reason) && |reason| <= REASON_LIMIT
              && (Held(db.tasks[t]) ==> db.tasks[t].holdOid == Some(o))
    ensures Defer(db, t, o, reason).Ok? ==>
              var after := Defer(db, t, o, reason).value;
              && !Active(after, t, o) && !Held(after.tasks[t]) && after.progress == db.progress
              && after.audit == db.audit + [Deferral(t, o, reason)]
              && after.members.Keys == db.members.Keys && after.tasks.Keys == db.tasks.Keys
              && (forall k :: k in db.members && k != (t, o) ==> after.members[k] == db.members[k])
              && (forall u :: u in db.tasks && u != t ==> after.tasks[u] == db.tasks[u])
  {
  }

  /** A hold is released for a stated reason, and what it was about is on record. */
  lemma ResumeExact(db: Db, t: TaskId, reason: string)
    ensures Resume(db, t, reason).Ok? <==> t in db.tasks && Held(db.tasks[t]) && !Blank(reason)
    ensures Resume(db, t, reason).Ok? ==>
              var after := Resume(db, t, reason).value;
              && !Held(after.tasks[t]) && after.members == db.members && after.progress == db.progress
              && (forall u :: u in db.tasks && u != t ==> after.tasks[u] == db.tasks[u])
              && |after.audit| == |db.audit| + 1 && db.audit <= after.audit
              && after.audit[|db.audit|].Resumption? && after.audit[|db.audit|].task == t
              && reason <= after.audit[|db.audit|].reason
              && EndsWith(after.audit[|db.audit|].reason, db.tasks[t].holdReason)
  {
    if Resume(db, t, reason).Ok? {
      var entry := reason + "; previous hold: " + db.tasks[t].holdReason;
      assert entry[|entry| - |db.tasks[t].holdReason|..] == db.tasks[t].holdReason;
    }
  }

  predicate EndsWith(s: string, tail: string) {
    |tail| <= |s| && s[|s| - |tail|..] == tail
  }

  function TrimLeft(s: string): string {
    if s != "" && IsSpace(s[0]) then TrimLeft(s[1..]) else s
  }

  function TrimRight(s: string): string {
    if s != "" && IsSpace(s[|s| - 1]) then TrimRight(s[..|s| - 1]) else s
  }

  /** strings.TrimSpace. */
  function TrimSpace(s: string): string {
    TrimRight(TrimLeft(s))
  }

  lemma {:induction false} TrimLeftEmpties(s: string)
    ensures TrimLeft(s) == "" <==> Blank(s)
    ensures TrimLeft(s) != "" ==> !IsSpace(TrimLeft(s)[0])
  {
    if s != "" && IsSpace(s[0]) {
      TrimLeftEmpties(s[1..]);
      assert forall i :: 0 < i < |s| ==> s[i] == s[1..][i - 1];
    }
  }

  lemma {:induction false} TrimRightKeepsFirst(s: string)
    requires s != "" && !IsSpace(s[0])
    ensures TrimRight(s) != ""
  {
    if IsSpace(s[|s| - 1]) {
      TrimRightKeepsFirst(s[..|s| - 1]);
    }
  }

  /** A reason is refused as blank exactly when trimming leaves nothing of it. */
  lemma BlankIsTrimmedEmpty(reason: string)
    ensures Blank(reason) <==> TrimSpace(reason) == ""
  {
    TrimLeftEmpties(reason);
    if TrimLeft(reason) != "" {
      TrimRightKeepsFirst(TrimLeft(reason));
    }
  }

  // ---------------------------------------------------------------- verify

  /**
   A verification starts on an unheld task of a sound ledger if every active member is
   processed, and leaves a finished task alone unless it is to be checked afresh.
   */
  lemma BeginVerifyExact(db: Db, t: TaskId, restart: bool)
    requires Inv(db)
    ensures BeginVerify(db, t, restart).Ok? <==>
              t in db.tasks && !Held(db.tasks[t]) && ((db.tasks[t].done && !restart) || AllProcessed(db, t))
    ensures t in db.tasks ==> (BeginVerify(db, t, restart) == Err(LedgerError.SafetyHold) <==> Held(db.tasks[t]))
  {
    if t in db.tasks {
      ManifestAccepted(db, t);
      CountsProcessed(db, t);
    }
  }

  /** What it checks: everything again after a restart, otherwise what has not passed in this generation. */
  lemma BeginVerifyMeans(db: Db, t: TaskId, restart: bool, o: Oid)
    requires Generations(db) && BeginVerify(db, t, restart).Ok?
    ensures var after := BeginVerify(db, t, restart).value;
            if db.tasks[t].done && !restart then after == db
            else
              && t in after.tasks && !after.tasks[t].done && after.tasks[t].purged && after.tasks[t].phase == Verify
              && after.members == db.members && after.progress == db.progress
              && ((t, o) in db.members ==> (Passed(after, (t, o)) <==> !restart && Passed(db, (t, o))))
              && (forall u :: u in db.tasks && u != t ==> after.tasks[u] == db.tasks[u])
  {
    assert (t, o) in db.members ==> db.members[(t, o)].generation <= db.tasks[t].generation;
  }

  /** Residue found by a check brings the object back into the next deletion pass. */
  lemma ResidueIsRequeued(db: Db, t: TaskId, generation: nat, o: Oid, after: Db)
    requires Inv(db) && Active(db, t, o) && !db.tasks[t].done && NoHold(db) && generation == db.tasks[t].generation
    requires RecordVerify(db, t, generation, o, Residue) == Ok(after)
    ensures BeginPurge(after, t).Ok? && Claimable(BeginPurge(after, t).value, t, o)
  {
    assert (t, o) in db.members;
    RecordVerifyKeepsInv(db, t, generation, o, Residue);
    BeginPurgeExact(after, t);
    BeginPurgeMeans(after, t, o);
  }
}
