/**
 What every transaction of the ledger keeps. The conjuncts support each other: uniqueness of
 the active assignment is what protects a finished task from the shared progress rows, and
 the generation of a task is what ties a PASS to the deletion pass it followed.
 */
module LedgerInvariants {
  import opened Wrappers
  import opened Capacity
  import opened Ledger
  import Keyset

  // ---------------------------------------------------------------- the invariant

  /** Members belong to tasks and to the scan list, which is sealed once a task exists. */
  ghost predicate Frozen(db: Db) {
    && (forall k :: k in db.members ==> k.0 in db.tasks && k.1 in db.scan)
    && (forall t :: t in db.tasks ==> Sealed(db))
    && (Sealed(db) ==> db.meta.value.scanRows == Some(|db.scan|) && |db.scan| > 0)
    && (forall o :: o in db.scan ==> db.scan[o].payload < TWO_64)
  }

  ghost predicate InObjectOrder(rows: seq<ScanRow>) {
    forall i, j :: 0 <= i < j < |rows| ==> rows[i].oid < rows[j].oid
  }

  ghost predicate FromScan(scan: map<Oid, Snapshot>, rows: seq<ScanRow>) {
    forall i :: 0 <= i < |rows| ==> rows[i].oid in scan && rows[i] == RowOf(scan, rows[i].oid)
  }

  /** The members of the task are the rows of its digest, in object order, as scanned. */
  ghost predicate Manifest(db: Db, t: TaskId)
    requires t in db.tasks
  {
    var s := db.tasks[t];
    MemberOids(db, t) == Oids(s.digest) && InObjectOrder(s.digest) && FromScan(db.scan, s.digest)
    && |s.digest| == s.objectCount > 0
  }

  ghost predicate Manifests(db: Db) {
    forall t :: t in db.tasks ==> Manifest(db, t)
  }

  /** Allocation goes through the scan list in object order. */
  ghost predicate InOrder(db: Db) {
    forall a, b :: a in db.scan && b in db.scan && a < b && Assigned(db, b) ==> Assigned(db, a)
  }

  /** Results exist only for objects of some task. */
  ghost predicate NoStrays(db: Db) {
    forall o :: o in db.progress ==> Assigned(db, o)
  }

  /** Only the newest assignment of an object can be active. */
  ghost predicate UniqueActive(db: Db) {
    forall j, k :: j in db.members && k in db.members && j.1 == k.1 && j.0 < k.0 ==> db.members[j].deferred
  }

  /** Only the latest task can still be in its first deletion pass. */
  ghost predicate OneOpen(db: Db) {
    forall t, u :: t in db.tasks && u in db.tasks && t < u ==> db.tasks[t].purged
  }

  ghost predicate Milestones(db: Db) {
    forall t :: t in db.tasks ==>
      var s := db.tasks[t];
      (s.done ==> s.purged && !Held(s)) && (s.phase == Verify ==> s.purged) && 1 <= s.generation
  }

  /** A check never carries a generation its task has not reached. */
  ghost predicate Generations(db: Db) {
    forall k :: k in db.members && k.0 in db.tasks ==> db.members[k].generation <= db.tasks[k.0].generation
  }

  /** A finished task: every active member is processed and passed in the task's generation. */
  ghost predicate DoneIsVerified(db: Db) {
    forall k :: k in db.members && k.0 in db.tasks && db.tasks[k.0].done && !db.members[k].deferred ==>
      Processed(db, k.1) && Passed(db, k)
  }

  ghost predicate DeferralOf(audit: seq<Action>, k: RowKey, i: nat) {
    i < |audit| && audit[i].Deferral? && audit[i].task == k.0 && audit[i].oid == k.1
  }

  /** No object is set aside without a recorded decision. */
  ghost predicate Audited(db: Db) {
    forall k :: k in db.members && db.members[k].deferred ==> exists i :: DeferralOf(db.audit, k, i)
  }

  ghost predicate Structure(db: Db) {
    Frozen(db) && Manifests(db) && InOrder(db) && NoStrays(db)
  }

  ghost predicate Dynamics(db: Db) {
    UniqueActive(db) && OneOpen(db) && Milestones(db) && Generations(db) && DoneIsVerified(db) && Audited(db)
  }

  ghost predicate Inv(db: Db) {
    Structure(db) && Dynamics(db)
  }

  lemma InvEmpty()
    ensures Inv(EMPTY)
  {
  }

  // ---------------------------------------------------------------- counting

  /** Rows with distinct objects are as many as their objects. */
  lemma {:induction false} ImageSize(s: set<RowKey>)
    requires forall j, k :: j in s && k in s && j.1 == k.1 ==> j == k
    ensures |set k | k in s :: k.1| == |s|
    decreases |s|
  {
    var image := set k | k in s :: k.1;
    if s != {} {
      var x :| x in s;
      var rest := s - {x};
      ImageSize(rest);
      assert image == (set k | k in rest :: k.1) + {x.1};
      assert x.1 !in set k | k in rest :: k.1;
    }
  }

  lemma RowCount(db: Db, t: TaskId)
    ensures |Rows(db, t)| == |MemberOids(db, t)|
  {
    ImageSize(Rows(db, t));
    assert MemberOids(db, t) == set k | k in Rows(db, t) :: k.1;
  }

  /** Distinct rows have distinct objects, so a manifest has as many objects as rows. */
  lemma {:induction false} OidCount(rows: seq<ScanRow>)
    requires InObjectOrder(rows)
    ensures |Oids(rows)| == |rows|
  {
    if rows != [] {
      var init, x := rows[..|rows| - 1], rows[|rows| - 1];
      OidCount(init);
      assert Oids(rows) == Oids(init) + {x.oid};
      assert x.oid !in Oids(init);
    }
  }

  function OidList(rows: seq<ScanRow>): seq<Oid> {
    seq(|rows|, i requires 0 <= i < |rows| => rows[i].oid)
  }

  lemma OidListIsSorted(rows: seq<ScanRow>)
    requires InObjectOrder(rows)
    ensures OidList(rows) == Keyset.Sorted(Oids(rows))
  {
    var p := OidList(rows);
    forall x | x in Keyset.Elements(p) ensures x in Oids(rows) {
      var i :| 0 <= i < |p| && p[i] == x;
      assert rows[i] in rows;
    }
    forall x | x in Oids(rows) ensures x in Keyset.Elements(p) {
      var i :| 0 <= i < |rows| && rows[i].oid == x;
      assert p[i] == x;
    }
    Keyset.AscendingUnique(p, Keyset.Sorted(Oids(rows)));
  }

  /** Joining the objects of a manifest with the scan list gives the manifest back. */
  lemma JoinGivesManifest(db: Db, rows: seq<ScanRow>)
    requires InObjectOrder(rows) && FromScan(db.scan, rows)
    ensures ScanRows(db, Oids(rows)) == rows
  {
    var oids := Oids(rows);
    assert oids * db.scan.Keys == oids;
    OidListIsSorted(rows);
    assert ScanRows(db, oids) == RowsOf(db.scan, OidList(rows));
  }

  /** CheckManifest accepts every task, in every state the invariant describes. */
  lemma ManifestAccepted(db: Db, t: TaskId)
    requires t in db.tasks && Manifest(db, t)
    ensures ManifestOk(db, t)
  {
    JoinGivesManifest(db, db.tasks[t].digest);
  }

  /** Under the invariant a task has exactly its recorded number of rows. */
  lemma TaskTotal(db: Db, t: TaskId)
    requires t in db.tasks && Manifest(db, t)
    ensures Counts(db, t).total == db.tasks[t].objectCount > 0
  {
    RowCount(db, t);
    OidCount(db.tasks[t].digest);
  }

  lemma SplitSize<T>(a: set<T>, b: set<T>)
    requires a !! b
    ensures |a + b| == |a| + |b|
  {
  }

  lemma FullSubset<T>(a: set<T>, whole: set<T>)
    requires a <= whole && |a| == |whole|
    ensures a == whole
  {
    assert whole == a + (whole - a);
    SplitSize(a, whole - a);
  }

  lemma EmptySize<T>(a: set<T>)
    ensures |a| == 0 <==> a == {}
  {
  }

  /** Nothing pending and nothing failed means every active member is processed. */
  lemma CountsProcessed(db: Db, t: TaskId)
    ensures Counts(db, t).pending + Counts(db, t).failed == 0 <==> AllProcessed(db, t)
  {
    var pending := set k | k in Rows(db, t) && !db.members[k].deferred && k.1 !in db.progress;
    var failed := set k | k in Rows(db, t) && !db.members[k].deferred && k.1 in db.progress
          && db.progress[k.1].status == Failed;
    EmptySize(pending);
    EmptySize(failed);
    assert forall k :: k in db.members && k.0 == t && !db.members[k].deferred ==>
        (Processed(db, k.1) <==> k !in pending && k !in failed);
  }

  ghost predicate AllPassed(db: Db, t: TaskId) {
    forall k :: k in db.members && k.0 == t && !db.members[k].deferred ==> Passed(db, k)
  }

  /** The verified and deferred counts fill the total exactly when every active member passed. */
  lemma CountsVerified(db: Db, t: TaskId)
    ensures Counts(db, t).verified + Counts(db, t).deferred == Counts(db, t).total <==> AllPassed(db, t)
  {
    var rows := Rows(db, t);
    var verified := set k | k in rows && !db.members[k].deferred && Passed(db, k);
    var deferred := set k | k in rows && db.members[k].deferred;
    SplitSize(verified, deferred);
    if |verified| + |deferred| == |rows| {
      FullSubset(verified + deferred, rows);
      forall k | k in db.members && k.0 == t && !db.members[k].deferred ensures Passed(db, k) {
        assert k in rows;
      }
    }
    if AllPassed(db, t) {
      assert verified + deferred == rows;
    }
  }

  // ---------------------------------------------------------------- frames

  /** The same scan list, members and manifests; results only for the same objects. */
  ghost predicate SameShape(db: Db, after: Db) {
    && after.scan == db.scan && after.meta == db.meta
    && after.members.Keys == db.members.Keys && after.tasks.Keys == db.tasks.Keys
    && (forall t :: t in db.tasks ==> after.tasks[t].digest == db.tasks[t].digest
                                      && after.tasks[t].objectCount == db.tasks[t].objectCount)
  }

  lemma ManifestsKept(db: Db, after: Db)
    requires SameShape(db, after) && Manifests(db)
    ensures Manifests(after)
  {
    forall t | t in after.tasks ensures Manifest(after, t) {
      assert MemberOids(after, t) == MemberOids(db, t);
      assert Manifest(db, t);
    }
  }

  lemma AssignedKept(db: Db, after: Db)
    requires after.members.Keys == db.members.Keys
    ensures forall o :: Assigned(after, o) <==> Assigned(db, o)
  {
    assert forall k :: k in after.members <==> k in db.members;
  }

  lemma FrozenKept(db: Db, after: Db)
    requires Frozen(db) && SameShape(db, after)
    ensures Frozen(after)
  {
    assert forall k :: k in after.members <==> k in db.members;
  }

  lemma OrderKept(db: Db, after: Db)
    requires InOrder(db) && SameShape(db, after)
    ensures InOrder(after)
  {
    AssignedKept(db, after);
  }

  lemma StraysKept(db: Db, after: Db)
    requires SameShape(db, after)
    requires forall o :: o in after.progress ==> Assigned(db, o)
    ensures NoStrays(after)
  {
    AssignedKept(db, after);
  }

  lemma ShapeKept(db: Db, after: Db)
    requires Structure(db) && SameShape(db, after)
    requires forall o :: o in after.progress ==> Assigned(db, o)
    ensures Structure(after)
  {
    ManifestsKept(db, after);
    FrozenKept(db, after);
    OrderKept(db, after);
    StraysKept(db, after);
  }

  // ---------------------------------------------------------------- recovery

  lemma RecoverDynamics(db: Db)
    requires Dynamics(db)
    ensures Dynamics(Recover(db))
  {
  }

  lemma RecoverKeepsInv(db: Db)
    requires Inv(db)
    ensures Inv(Recover(db))
  {
    RecoverDynamics(db);
    ShapeKept(db, Recover(db));
  }

  // ---------------------------------------------------------------- scan

  lemma NothingAllocated(db: Db)
    requires Structure(db) && db.tasks == map[]
    ensures db.members == map[] && db.progress == map[]
  {
    assert forall k :: k !in db.members;
    assert forall o :: o !in db.progress;
  }

  lemma BindKeepsInv(db: Db, b: Binding)
    requires Inv(db)
    ensures Bind(db, b).Ok? ==> Inv(Bind(db, b).value)
  {
    if db.meta == None && Bind(db, b).Ok? {
      assert db.tasks == map[] by {
        assert forall t :: t !in db.tasks;
      }
      NothingAllocated(db);
    }
  }

  lemma BeginScanKeepsInv(db: Db)
    requires Inv(db)
    ensures BeginScan(db).Ok? ==> Inv(BeginScan(db).value) && !Sealed(BeginScan(db).value)
  {
    if BeginScan(db).Ok? {
      NothingAllocated(db);
    }
  }

  lemma {:induction false} InsertedFits(scan: map<Oid, Snapshot>, rows: seq<ScanRow>, o: Oid)
    requires Fits(rows) && (forall o :: o in scan ==> scan[o].payload < TWO_64)
    requires o in Inserted(scan, rows)
    ensures Inserted(scan, rows)[o].payload < TWO_64
  {
    if rows != [] {
      var init := rows[..|rows| - 1];
      assert Fits(init) by {
        assert forall i :: 0 <= i < |init| ==> init[i] == rows[i];
      }
      assert rows[|rows| - 1].payload < TWO_64;
      if o in Inserted(scan, init) {
        InsertedFits(scan, init, o);
      }
    }
  }

  lemma InsertScanKeepsInv(db: Db, rows: seq<ScanRow>)
    requires Inv(db) && db.tasks == map[] && !Sealed(db) && Fits(rows)
    ensures Inv(InsertScan(db, rows)) && !Sealed(InsertScan(db, rows))
  {
    NothingAllocated(db);
    forall o | o in InsertScan(db, rows).scan ensures InsertScan(db, rows).scan[o].payload < TWO_64 {
      InsertedFits(db.scan, rows, o);
    }
  }

  lemma FinishScanKeepsInv(db: Db, rows: nat)
    requires Inv(db) && db.tasks == map[]
    ensures FinishScan(db, rows).Ok? ==> Inv(FinishScan(db, rows).value)
  {
    NothingAllocated(db);
  }

  // ---------------------------------------------------------------- allocation

  /** What a new batch consists of: the least objects of the pool, as scanned. */
  ghost predicate Batch(db: Db, pool: set<Oid>, selected: seq<ScanRow>) {
    && selected != [] && InObjectOrder(selected) && FromScan(db.scan, selected)
    && Oids(selected) == Keyset.UpTo(pool, selected[|selected| - 1].oid)
  }

  lemma OidsOfRows(scan: map<Oid, Snapshot>, q: seq<Oid>)
    requires forall i :: 0 <= i < |q| ==> q[i] in scan
    ensures Oids(RowsOf(scan, q)) == Keyset.Elements(q)
  {
    var rows := RowsOf(scan, q);
    forall x | x in q ensures x in Oids(rows) {
      var i :| 0 <= i < |q| && q[i] == x;
      assert rows[i] in rows;
    }
    forall x | x in Oids(rows) ensures x in q {
      var i :| 0 <= i < |rows| && rows[i].oid == x;
      assert q[i] in q;
    }
  }

  lemma RowsInOrder(scan: map<Oid, Snapshot>, q: seq<Oid>)
    requires Keyset.Ascending(q) && forall i :: 0 <= i < |q| ==> q[i] in scan
    ensures InObjectOrder(RowsOf(scan, q)) && FromScan(scan, RowsOf(scan, q))
  {
  }

  lemma ListPrefix(db: Db, pool: set<Oid>, q: seq<Oid>, n: nat)
    requires Keyset.Ascending(q) && Keyset.Elements(q) == pool && 0 < n <= |q|
    requires forall i :: 0 <= i < |q| ==> q[i] in db.scan
    ensures Batch(db, pool, RowsOf(db.scan, q[..n]))
  {
    RowsInOrder(db.scan, q[..n]);
    OidsOfRows(db.scan, q[..n]);
    Keyset.PrefixIsUpTo(q, n);
  }

  lemma PrefixIsBatch(db: Db, retry: bool, max: nat, n: nat)
    requires 0 < n <= |Candidates(db, retry, max)|
    ensures Batch(db, Pool(db, retry), Candidates(db, retry, max)[..n])
  {
    var q := Keyset.Sorted(Pool(db, retry));
    assert forall i :: 0 <= i < |q| ==> q[i] in Keyset.Elements(q);
    assert n <= |q| && Candidates(db, retry, max)[..n] == RowsOf(db.scan, q[..n]);
    ListPrefix(db, Pool(db, retry), q, n);
  }

  lemma SelectedIsBatch(db: Db, target: nat, max: nat, retry: bool, c: seq<ScanRow>, selected: seq<ScanRow>)
    requires Frozen(db) && c == Candidates(db, retry, max)
    requires selected <= c && selected != []
    ensures Batch(db, Pool(db, retry), selected) && |selected| <= max
  {
    PrefixIsBatch(db, retry, max, |selected|);
    assert selected == c[..|selected|];
  }

  lemma SelectIsPrefix(rows: seq<ScanRow>, target: nat, max: nat)
    ensures var r := Select(rows, target, max); r.Ok? ==> r.value <= rows
  {
    if target != 0 && max != 0 {
      TakeBound(rows, target, max, 0);
    }
  }

  /** Allocation proceeds only when the list is sealed and nothing is held or open. */
  lemma CreateAllots(db: Db, target: nat, max: int, retry: bool, id: TaskId)
    ensures var r := Create(db, target, max, retry, id);
            r.Ok? && r.value.Fresh? ==>
              && 0 < max <= 100000 && NoHold(db) && OpenTasks(db) == {} && Sealed(db)
              && r == Allot(db, target, max, retry, id)
  {
  }

  lemma AllotSelects(db: Db, target: nat, max: nat, retry: bool, id: TaskId)
    ensures var r := Allot(db, target, max, retry, id);
            r.Ok? ==>
              && r.value.Fresh? && Select(Candidates(db, retry, max), target, max) == Ok(r.value.selected)
              && r.value.selected != [] && r.value.db == Allocate(db, target, retry, id, r.value.selected)
  {
  }

  /** A created task takes a batch of its pool, and only when nothing is held or open. */
  lemma CreateFacts(db: Db, target: nat, max: int, retry: bool, id: TaskId)
    requires Frozen(db)
    ensures var r := Create(db, target, max, retry, id);
            r.Ok? && r.value.Fresh? ==>
              && r.value.db == Allocate(db, target, retry, id, r.value.selected)
              && Batch(db, Pool(db, retry), r.value.selected)
              && NoHold(db) && OpenTasks(db) == {} && Sealed(db) && |r.value.selected| <= max
  {
    var r := Create(db, target, max, retry, id);
    if r.Ok? && r.value.Fresh? {
      CreateAllots(db, target, max, retry, id);
      AllotSelects(db, target, max, retry, id);
      var c := Candidates(db, retry, max);
      SelectIsPrefix(c, target, max);
      SelectedIsBatch(db, target, max, retry, c, r.value.selected);
    }
  }

  lemma AllocatedRows(db: Db, target: nat, retry: bool, id: TaskId, selected: seq<ScanRow>)
    ensures var after := Allocate(db, target, retry, id, selected);
            (forall k :: k in after.members <==> k in db.members || (k.0 == id && k.1 in Oids(selected)))
            && (forall k :: k in after.members && k.0 == id && k.1 in Oids(selected) ==>
                              after.members[k] == Member(false, 0, Pending))
            && (forall k :: k in db.members && !(k.0 == id && k.1 in Oids(selected))
                  ==> after.members[k] == db.members[k])
  {
  }

  lemma AllocateKeepsFrozen(db: Db, target: nat, retry: bool, id: TaskId, selected: seq<ScanRow>)
    requires Frozen(db) && Sealed(db) && FromScan(db.scan, selected)
    ensures Frozen(Allocate(db, target, retry, id, selected))
  {
    var after := Allocate(db, target, retry, id, selected);
    AllocatedRows(db, target, retry, id, selected);
    forall k | k in after.members ensures k.0 in after.tasks && k.1 in after.scan {
      if k !in db.members {
        var i :| 0 <= i < |selected| && selected[i].oid == k.1;
      }
    }
  }

  lemma AllocateKeepsStructure(db: Db, target: nat, retry: bool, id: TaskId, selected: seq<ScanRow>)
    requires Structure(db) && Sealed(db) && (forall t :: t in db.tasks ==> t < id)
    requires Batch(db, Pool(db, retry), selected)
    ensures Structure(Allocate(db, target, retry, id, selected))
  {
    AllocateKeepsFrozen(db, target, retry, id, selected);
    AllocateKeepsManifests(db, target, retry, id, selected);
    AllocateKeepsOrder(db, target, retry, id, selected);
    AllocateKeepsStrays(db, target, retry, id, selected);
  }

  lemma AllocateAssigns(db: Db, target: nat, retry: bool, id: TaskId, selected: seq<ScanRow>, o: Oid)
    ensures Assigned(Allocate(db, target, retry, id, selected), o) <==> Assigned(db, o) || o in Oids(selected)
  {
    AllocatedRows(db, target, retry, id, selected);
    var after := Allocate(db, target, retry, id, selected);
    if Assigned(db, o) {
      var k :| k in db.members && k.1 == o;
      assert k in after.members;
    }
    if o in Oids(selected) {
      assert (id, o) in after.members;
    }
  }

  lemma AllocatedManifest(db: Db, target: nat, retry: bool, id: TaskId, selected: seq<ScanRow>)
    requires Frozen(db) && id !in db.tasks && selected != [] && InObjectOrder(selected) && FromScan(db.scan, selected)
    ensures Manifest(Allocate(db, target, retry, id, selected), id)
  {
    var after := Allocate(db, target, retry, id, selected);
    AllocatedRows(db, target, retry, id, selected);
    forall o | o in Oids(selected) ensures o in MemberOids(after, id) {
      assert (id, o) in after.members;
    }
    forall o | o in MemberOids(after, id) ensures o in Oids(selected) {
      var k :| k in after.members && k.0 == id && k.1 == o;
    }
  }

  lemma AllocateKeepsManifest(db: Db, target: nat, retry: bool, id: TaskId, selected: seq<ScanRow>, t: TaskId)
    requires t in db.tasks && t != id && Manifest(db, t)
    ensures Manifest(Allocate(db, target, retry, id, selected), t)
  {
    var after := Allocate(db, target, retry, id, selected);
    AllocatedRows(db, target, retry, id, selected);
    assert MemberOids(after, t) == MemberOids(db, t);
  }

  lemma AllocateKeepsManifests(db: Db, target: nat, retry: bool, id: TaskId, selected: seq<ScanRow>)
    requires Manifests(db) && Frozen(db) && id !in db.tasks
    requires selected != [] && InObjectOrder(selected) && FromScan(db.scan, selected)
    ensures Manifests(Allocate(db, target, retry, id, selected))
  {
    AllocatedManifest(db, target, retry, id, selected);
    forall t | t in db.tasks ensures Manifest(Allocate(db, target, retry, id, selected), t) {
      AllocateKeepsManifest(db, target, retry, id, selected, t);
    }
  }

  lemma PoolIsUnassigned(db: Db, retry: bool, selected: seq<ScanRow>, a: Oid, b: Oid)
    requires InOrder(db) && Batch(db, Pool(db, retry), selected)
    requires a in db.scan && b in Oids(selected) && a < b
    ensures Assigned(db, a) || a in Oids(selected)
  {
    assert b in Pool(db, retry);
    if retry {
      assert Assigned(db, b);
    } else if !Assigned(db, a) {
      assert a in Pool(db, retry);
    }
  }

  lemma AllocateKeepsOrder(db: Db, target: nat, retry: bool, id: TaskId, selected: seq<ScanRow>)
    requires InOrder(db) && Batch(db, Pool(db, retry), selected)
    ensures InOrder(Allocate(db, target, retry, id, selected))
  {
    var after := Allocate(db, target, retry, id, selected);
    forall a, b | a in after.scan && b in after.scan && a < b && Assigned(after, b) ensures Assigned(after, a) {
      AllocateAssigns(db, target, retry, id, selected, a);
      AllocateAssigns(db, target, retry, id, selected, b);
      if b in Oids(selected) {
        PoolIsUnassigned(db, retry, selected, a, b);
      }
    }
  }

  lemma AllocateKeepsStrays(db: Db, target: nat, retry: bool, id: TaskId, selected: seq<ScanRow>)
    requires NoStrays(db)
    ensures NoStrays(Allocate(db, target, retry, id, selected))
  {
    var after := Allocate(db, target, retry, id, selected);
    forall o | o in after.progress ensures Assigned(after, o) {
      AllocateAssigns(db, target, retry, id, selected, o);
    }
  }

  /** A deferred object offered for retry has no active assignment at all. */
  lemma RetriedIsInactive(db: Db, o: Oid, j: RowKey)
    requires UniqueActive(db) && o in Pool(db, true) && j in db.members && j.1 == o
    ensures db.members[j].deferred
  {
    var k :| k in db.members && k.1 == o && db.members[k].deferred && k.0 in db.tasks && db.tasks[k.0].purged
          && Newest(db, k);
    assert j.0 == k.0 ==> j == k;
  }

  /** Every assignment of an object of the new batch was deferred, or there was none. */
  lemma SelectedAreInactive(db: Db, retry: bool, selected: seq<ScanRow>)
    requires UniqueActive(db) && Batch(db, Pool(db, retry), selected)
    ensures forall j :: j in db.members && j.1 in Oids(selected) ==> db.members[j].deferred
  {
    forall j | j in db.members && j.1 in Oids(selected) ensures db.members[j].deferred {
      assert j.1 in Pool(db, retry);
      if retry {
        RetriedIsInactive(db, j.1, j);
      } else {
        assert Assigned(db, j.1);
      }
    }
  }

  lemma AllocateKeepsDone(db: Db, target: nat, retry: bool, id: TaskId, selected: seq<ScanRow>)
    requires DoneIsVerified(db) && (forall t :: t in db.tasks ==> t < id)
    requires forall j :: j in db.members && j.1 in Oids(selected) ==> db.members[j].deferred
    ensures DoneIsVerified(Allocate(db, target, retry, id, selected))
  {
    var after := Allocate(db, target, retry, id, selected);
    AllocatedRows(db, target, retry, id, selected);
    forall k | k in after.members && k.0 in after.tasks && after.tasks[k.0].done && !after.members[k].deferred
      ensures Processed(after, k.1) && Passed(after, k)
    {
      assert k.0 != id;
      assert k in db.members && Processed(db, k.1) && Passed(db, k);
    }
  }

  lemma AllocateKeepsUnique(db: Db, target: nat, retry: bool, id: TaskId, selected: seq<ScanRow>)
    requires UniqueActive(db) && Frozen(db) && (forall t :: t in db.tasks ==> t < id)
    requires forall j :: j in db.members && j.1 in Oids(selected) ==> db.members[j].deferred
    ensures UniqueActive(Allocate(db, target, retry, id, selected))
  {
    var after := Allocate(db, target, retry, id, selected);
    AllocatedRows(db, target, retry, id, selected);
    forall j: RowKey, k: RowKey | j in after.members && k in after.members && j.1 == k.1 && j.0 < k.0
      ensures after.members[j].deferred
    {
      assert k.0 <= id && j.0 != id;
      assert j in db.members && after.members[j] == db.members[j];
    }
  }

  lemma AllocateKeepsAudit(db: Db, target: nat, retry: bool, id: TaskId, selected: seq<ScanRow>)
    requires Audited(db)
    ensures Audited(Allocate(db, target, retry, id, selected))
  {
    AllocatedRows(db, target, retry, id, selected);
  }

  lemma AllocateKeepsTasks(db: Db, target: nat, retry: bool, id: TaskId, selected: seq<ScanRow>)
    requires Milestones(db) && (forall t :: t in db.tasks ==> t < id) && OpenTasks(db) == {}
    ensures var after := Allocate(db, target, retry, id, selected); OneOpen(after) && Milestones(after)
  {
    forall t | t in db.tasks ensures db.tasks[t].purged {
      assert t !in OpenTasks(db);
    }
  }

  lemma AllocateKeepsGenerations(db: Db, target: nat, retry: bool, id: TaskId, selected: seq<ScanRow>)
    requires Frozen(db) && Generations(db) && forall t :: t in db.tasks ==> t < id
    ensures Generations(Allocate(db, target, retry, id, selected))
  {
    AllocatedRows(db, target, retry, id, selected);
  }

  lemma AllocateKeepsDynamics(db: Db, target: nat, retry: bool, id: TaskId, selected: seq<ScanRow>)
    requires Frozen(db) && Dynamics(db) && (forall t :: t in db.tasks ==> t < id)
    requires OpenTasks(db) == {} && Batch(db, Pool(db, retry), selected)
    ensures Dynamics(Allocate(db, target, retry, id, selected))
  {
    SelectedAreInactive(db, retry, selected);
    AllocateKeepsDone(db, target, retry, id, selected);
    AllocateKeepsUnique(db, target, retry, id, selected);
    AllocateKeepsAudit(db, target, retry, id, selected);
    AllocateKeepsTasks(db, target, retry, id, selected);
    AllocateKeepsGenerations(db, target, retry, id, selected);
  }

  lemma CreateKeepsInv(db: Db, target: nat, max: int, retry: bool, id: TaskId)
    requires Inv(db) && (forall t :: t in db.tasks ==> t < id)
    ensures var r := Create(db, target, max, retry, id);
            r.Ok? && r.value.Fresh? ==> Inv(r.value.db)
  {
    CreateFacts(db, target, max, retry, id);
    var r := Create(db, target, max, retry, id);
    if r.Ok? && r.value.Fresh? {
      AllocateKeepsStructure(db, target, retry, id, r.value.selected);
      AllocateKeepsDynamics(db, target, retry, id, r.value.selected);
    }
  }

  // ---------------------------------------------------------------- transactions on one unfinished task

  /** Two tasks cannot both hold an active assignment of the object. */
  lemma OneActive(db: Db, t: TaskId, u: TaskId, o: Oid)
    requires UniqueActive(db) && Active(db, t, o) && Active(db, u, o)
    ensures t == u
  {
    assert (t, o) in db.members && (u, o) in db.members;
  }

  /** The row of a task moves forward and is not finished afterwards. */
  ghost predicate RowMoves(s: Task, next: Task) {
    && next.digest == s.digest && next.objectCount == s.objectCount
    && (s.purged ==> next.purged) && s.generation <= next.generation
    && !next.done && (next.phase == Verify ==> next.purged)
  }

  /** A transaction that works on task `t` and on results of its active objects only. */
  ghost predicate WorksOn(db: Db, after: Db, t: TaskId, touched: set<Oid>) {
    && SameShape(db, after)
    && t in db.tasks && RowMoves(db.tasks[t], after.tasks[t])
    && (forall u :: u in db.tasks && u != t ==> after.tasks[u] == db.tasks[u])
    && (forall k :: k in db.members && k.0 != t ==> after.members[k] == db.members[k])
    && (forall k :: k in db.members && k.0 == t ==>
          && (db.members[k].deferred ==> after.members[k].deferred)
          && (after.members[k].generation == db.members[k].generation
              || after.members[k].generation <= after.tasks[t].generation))
    && (forall o :: o in touched ==> Active(db, t, o))
    && (forall o :: o in db.progress && o !in touched ==> o in after.progress && after.progress[o] == db.progress[o])
    && (forall o :: o in after.progress ==> o in db.progress || o in touched)
  }

  /** The shared progress rows of a finished task are out of reach of every other task. */
  lemma DoneElsewhere(db: Db, after: Db, t: TaskId, touched: set<Oid>)
    requires UniqueActive(db) && DoneIsVerified(db) && WorksOn(db, after, t, touched)
    ensures DoneIsVerified(after)
  {
    forall k | k in after.members && k.0 in after.tasks && after.tasks[k.0].done && !after.members[k].deferred
      ensures Processed(after, k.1) && Passed(after, k)
    {
      assert k.0 != t;
      assert Processed(db, k.1) && Passed(db, k);
      if k.1 in touched {
        assert k == (k.0, k.1);
        OneActive(db, t, k.0, k.1);
      }
    }
  }

  lemma UniqueElsewhere(db: Db, after: Db, t: TaskId, touched: set<Oid>)
    requires UniqueActive(db) && WorksOn(db, after, t, touched)
    ensures UniqueActive(after)
  {
    forall j, k | j in after.members && k in after.members && j.1 == k.1
          && j.0 < k.0 ensures after.members[j].deferred {
      assert j in db.members && k in db.members && db.members[j].deferred;
    }
  }

  lemma RowsElsewhere(db: Db, after: Db, t: TaskId, touched: set<Oid>)
    requires OneOpen(db) && Milestones(db) && Generations(db) && WorksOn(db, after, t, touched)
    ensures OneOpen(after) && Milestones(after) && Generations(after)
  {
    assert forall k :: k in after.members <==> k in db.members;
    assert forall u :: u in after.tasks <==> u in db.tasks;
  }

  lemma StructureElsewhere(db: Db, after: Db, t: TaskId, touched: set<Oid>)
    requires Structure(db) && WorksOn(db, after, t, touched)
    ensures Structure(after)
  {
    forall o | o in after.progress ensures Assigned(db, o) {
      if o in touched {
        assert (t, o) in db.members;
      }
    }
    ShapeKept(db, after);
  }

  lemma WorkKeepsInv(db: Db, after: Db, t: TaskId, touched: set<Oid>)
    requires Inv(db) && WorksOn(db, after, t, touched) && Audited(after)
    ensures Inv(after)
  {
    StructureElsewhere(db, after, t, touched);
    UniqueElsewhere(db, after, t, touched);
    RowsElsewhere(db, after, t, touched);
    DoneElsewhere(db, after, t, touched);
  }

  /** No member is newly deferred and the audit trail only grows. */
  lemma AuditKept(db: Db, after: Db)
    requires Audited(db) && after.audit == db.audit && after.members.Keys == db.members.Keys
    requires forall k :: k in db.members ==> after.members[k].deferred == db.members[k].deferred
    ensures Audited(after)
  {
    assert forall k :: k in after.members <==> k in db.members;
  }

  lemma AuditGrows(db: Db, after: Db, a: Action)
    requires Audited(db) && after.audit == db.audit + [a]
    requires forall k :: k in after.members && after.members[k].deferred ==>
               (k in db.members && db.members[k].deferred) || DeferralOf([a], k, 0)
    ensures Audited(after)
  {
    forall k | k in after.members && after.members[k].deferred ensures exists i :: DeferralOf(after.audit, k, i) {
      if k in db.members && db.members[k].deferred {
        var i :| DeferralOf(db.audit, k, i);
        assert DeferralOf(after.audit, k, i);
      } else {
        assert DeferralOf(after.audit, k, |db.audit|);
      }
    }
  }

  // ---------------------------------------------------------------- purge

  lemma ResidueIsActive(db: Db, t: TaskId)
    ensures forall o :: o in ResidueOids(db, t) ==> Active(db, t, o)
  {
    forall o | o in ResidueOids(db, t) ensures Active(db, t, o) {
      var k :| k in db.members && k.0 == t && !db.members[k].deferred && k.1 == o;
      assert k == (t, o);
    }
  }

  lemma BeginPurgeWorks(db: Db, t: TaskId)
    ensures BeginPurge(db, t).Ok? ==> WorksOn(db, BeginPurge(db, t).value, t, ResidueOids(db, t))
  {
    ResidueIsActive(db, t);
  }

  lemma BeginPurgeKeepsInv(db: Db, t: TaskId)
    requires Inv(db)
    ensures BeginPurge(db, t).Ok? ==> Inv(BeginPurge(db, t).value)
  {
    if BeginPurge(db, t).Ok? {
      var after := BeginPurge(db, t).value;
      BeginPurgeWorks(db, t);
      AuditKept(db, after);
      WorkKeepsInv(db, after, t, ResidueOids(db, t));
    }
  }

  lemma RecordDoneWorks(db: Db, t: TaskId, o: Oid, keys: nat, bytes: nat)
    requires t in db.tasks && !db.tasks[t].done && Milestones(db)
    ensures RecordDone(db, t, o, keys, bytes).Ok? ==> WorksOn(db, RecordDone(db, t, o, keys, bytes).value, t, {o})
  {
  }

  lemma RecordDoneKeepsInv(db: Db, t: TaskId, o: Oid, keys: nat, bytes: nat)
    requires Inv(db) && t in db.tasks && !db.tasks[t].done
    ensures RecordDone(db, t, o, keys, bytes).Ok? ==> Inv(RecordDone(db, t, o, keys, bytes).value)
  {
    if RecordDone(db, t, o, keys, bytes).Ok? {
      var after := RecordDone(db, t, o, keys, bytes).value;
      RecordDoneWorks(db, t, o, keys, bytes);
      AuditKept(db, after);
      WorkKeepsInv(db, after, t, {o});
    }
  }

  lemma RecordFailKeepsInv(db: Db, t: TaskId, o: Oid, keys: nat, bytes: nat)
    requires Inv(db) && t in db.tasks && !db.tasks[t].done
    ensures RecordFail(db, t, o, keys, bytes).Ok? ==> Inv(RecordFail(db, t, o, keys, bytes).value)
  {
    if RecordFail(db, t, o, keys, bytes).Ok? {
      WorkKeepsInv(db, RecordFail(db, t, o, keys, bytes).value, t, {o});
    }
  }

  lemma RowKeepsInv(db: Db, t: TaskId, next: Task)
    requires Inv(db) && t in db.tasks && RowMoves(db.tasks[t], next)
    ensures Inv(WithTask(db, t, next))
  {
    AuditKept(db, WithTask(db, t, next));
    WorkKeepsInv(db, WithTask(db, t, next), t, {});
  }

  lemma CompletePurgeKeepsInv(db: Db, t: TaskId, count: nat)
    requires Inv(db)
    ensures CompletePurge(db, t, count).Ok? ==> Inv(CompletePurge(db, t, count).value)
  {
    if CompletePurge(db, t, count).Ok? {
      RowKeepsInv(db, t, db.tasks[t].(purged := true, phase := Purge));
    }
  }

  // ---------------------------------------------------------------- safety latch and deferral

  lemma HoldKeepsInv(db: Db, t: TaskId, oid: Option<Oid>, reason: string)
    requires Inv(db)
    ensures Inv(Hold(db, t, oid, reason))
  {
    if t in db.tasks && !db.tasks[t].done {
      RowKeepsInv(db, t, db.tasks[t].(holdReason := Keyset.Take(reason, REASON_LIMIT), holdOid := oid));
    }
  }

  lemma ResumeKeepsInv(db: Db, t: TaskId, reason: string)
    requires Inv(db)
    ensures Resume(db, t, reason).Ok? ==> Inv(Resume(db, t, reason).value)
  {
    if Resume(db, t, reason).Ok? {
      var after := Resume(db, t, reason).value;
      AuditGrows(db, after, after.audit[|db.audit|]);
      WorkKeepsInv(db, after, t, {});
    }
  }

  lemma DeferralWorks(db: Db, t: TaskId, o: Oid, reason: string)
    requires Milestones(db) && t in db.tasks && !db.tasks[t].done && Active(db, t, o)
    ensures WorksOn(db, WithDeferral(db, t, o, reason), t, {})
  {
  }

  lemma DeferralKeepsInv(db: Db, t: TaskId, o: Oid, reason: string)
    requires Inv(db) && t in db.tasks && !db.tasks[t].done && Active(db, t, o)
    ensures Inv(WithDeferral(db, t, o, reason))
  {
    var after := WithDeferral(db, t, o, reason);
    DeferralWorks(db, t, o, reason);
    AuditGrows(db, after, Deferral(t, o, reason));
    WorkKeepsInv(db, after, t, {});
  }

  lemma DeferKeepsInv(db: Db, t: TaskId, o: Oid, reason: string)
    requires Inv(db)
    ensures Defer(db, t, o, reason).Ok? ==> Inv(Defer(db, t, o, reason).value)
  {
    if Defer(db, t, o, reason).Ok? {
      DeferralKeepsInv(db, t, o, reason);
    }
  }

  // ---------------------------------------------------------------- verify

  lemma BeginVerifyKeepsInv(db: Db, t: TaskId, restart: bool)
    requires Inv(db)
    ensures BeginVerify(db, t, restart).Ok? ==> Inv(BeginVerify(db, t, restart).value)
  {
    var r := BeginVerify(db, t, restart);
    if r.Ok? && r.value != db {
      RowKeepsInv(db, t, r.value.tasks[t]);
    }
  }

  /** The row of a member with a check of the task's present generation. */
  ghost function Checked(db: Db, t: TaskId, o: Oid, check: Check): Db
    requires t in db.tasks && (t, o) in db.members
  {
    db.(members := db.members[(t, o) := db.members[(t, o)].(generation := db.tasks[t].generation, check := check)])
  }

  lemma CheckedWorks(db: Db, t: TaskId, o: Oid, check: Check)
    requires t in db.tasks && !db.tasks[t].done && (t, o) in db.members && Milestones(db)
    ensures WorksOn(db, Checked(db, t, o, check), t, {})
  {
  }

  lemma CheckedKeepsInv(db: Db, t: TaskId, o: Oid, check: Check)
    requires Inv(db) && t in db.tasks && !db.tasks[t].done && (t, o) in db.members
    ensures Inv(Checked(db, t, o, check))
  {
    CheckedWorks(db, t, o, check);
    AuditKept(db, Checked(db, t, o, check));
    WorkKeepsInv(db, Checked(db, t, o, check), t, {});
  }

  lemma RecordVerifyKeepsInv(db: Db, t: TaskId, generation: nat, o: Oid, check: Check)
    requires Inv(db) && t in db.tasks && !db.tasks[t].done && generation == db.tasks[t].generation
    ensures RecordVerify(db, t, generation, o, check).Ok? ==> Inv(RecordVerify(db, t, generation, o, check).value)
  {
    if Active(db, t, o) {
      CheckedKeepsInv(db, t, o, check);
    }
  }

  lemma FinishedIsVerified(db: Db, t: TaskId)
    requires DoneIsVerified(db) && t in db.tasks && AllProcessed(db, t) && AllPassed(db, t)
    ensures DoneIsVerified(WithTask(db, t, db.tasks[t].(done := true)))
  {
    var after := WithTask(db, t, db.tasks[t].(done := true));
    forall k | k in after.members && k.0 in after.tasks && after.tasks[k.0].done && !after.members[k].deferred
      ensures Processed(after, k.1) && Passed(after, k)
    {
      assert Processed(db, k.1) && Passed(db, k);
    }
  }

  lemma FinishKeepsDynamics(db: Db, t: TaskId)
    requires Dynamics(db) && t in db.tasks && AllProcessed(db, t) && AllPassed(db, t)
    requires db.tasks[t].phase == Verify && !Held(db.tasks[t])
    ensures Dynamics(WithTask(db, t, db.tasks[t].(done := true)))
  {
    FinishedIsVerified(db, t);
    AuditKept(db, WithTask(db, t, db.tasks[t].(done := true)));
  }

  lemma FinishKeepsInv(db: Db, t: TaskId)
    requires Inv(db) && t in db.tasks && AllProcessed(db, t) && AllPassed(db, t)
    requires db.tasks[t].phase == Verify && !Held(db.tasks[t])
    ensures Inv(WithTask(db, t, db.tasks[t].(done := true)))
  {
    ShapeKept(db, WithTask(db, t, db.tasks[t].(done := true)));
    FinishKeepsDynamics(db, t);
  }

  lemma CompleteVerifyKeepsInv(db: Db, t: TaskId, generation: nat, count: nat)
    requires Inv(db)
    ensures CompleteVerify(db, t, generation, count).Ok? ==> Inv(CompleteVerify(db, t, generation, count).value)
  {
    var r := CompleteVerify(db, t, generation, count);
    if r.Ok? && r.value != db {
      CountsProcessed(db, t);
      CountsVerified(db, t);
      FinishKeepsInv(db, t);
    }
  }
}
