/**
 Histories that show where the tool does not do what its documentation says: a list sealed with
 an object that was not read, a list sealed with an old snapshot, and a task that cannot finish.
 */
module Witnesses {
  import opened Wrappers
  import opened Capacity
  import opened Ledger
  import opened LedgerInvariants
  import opened LedgerTheorems
  import opened System
  import opened SystemInvariants
  import ScanRun
  import CommandSteps
  import Batches
  import Keyset
  import ObjectZero

  function Empty(meta: Option<Meta>, scan: map<Oid, Snapshot>): Db {
    Db(meta, scan, map[], map[], map[], [])
  }

  /** The list while it is being filled. */
  function Filling(b: Binding, scan: map<Oid, Snapshot>): Db {
    Empty(Some(Meta(b, Running, None)), scan)
  }

  lemma Prepares(b: Binding, scan: map<Oid, Snapshot>)
    ensures ScanRun.Prepared(EMPTY, b) == Ok(Filling(b, map[]))
    ensures ScanRun.Prepared(Filling(b, scan), b) == Ok(Filling(b, scan))
  {
    assert Recover(EMPTY) == EMPTY && Recover(Filling(b, scan)) == Filling(b, scan);
  }

  lemma Seals(b: Binding, scan: map<Oid, Snapshot>, rows: seq<ScanRow>)
    requires rows != [] && |Inserted(scan, rows)| == |rows|
    ensures ScanRun.Scanned(Filling(b, scan), b, rows)
            == Ok(Empty(Some(Meta(b, Complete, Some(|rows|))), Inserted(scan, rows)))
  {
    Prepares(b, scan);
    assert InsertScan(Filling(b, scan), rows) == Filling(b, Inserted(scan, rows));
  }

  /** A scan that is interrupted after its first rows, and one that runs to its end. */
  function TwoScans(b: Binding, first: seq<ScanRow>, second: seq<ScanRow>): seq<Event> {
    [Open(b), Scanner(BindScan), Scanner(StartScan), Scanner(Insert(first)), Exit]
    + CommandSteps.ScanEvents(b, second)
  }

  /** The first of them. */
  lemma ScanInterrupted(b: Binding, first: seq<ScanRow>, store: map<string, nat>) returns (r: Run)
    requires Fits(first)
    ensures Happened(r) && Last(r) == Sys(Filling(b, Inserted(map[], first)), Idle, store)
    ensures r.events == [Open(b), Scanner(BindScan), Scanner(StartScan), Scanner(Insert(first)), Exit]
  {
    r := Run([Sys(EMPTY, Idle, store)], []);
    Prepares(b, map[]);
    r := CommandSteps.ScanBegins(r, b, Filling(b, map[]));
    r := CommandSteps.ScanReads(r, first);
    assert InsertScan(Filling(b, map[]), first) == Filling(b, Inserted(map[], first));
    r := Extend(r, Exit, Sys(Filling(b, Inserted(map[], first)), Idle, store));
  }

  lemma ScanTwice(b: Binding, first: seq<ScanRow>, second: seq<ScanRow>, store: map<string, nat>) returns (r: Run)
    requires Fits(first) && Fits(second) && second != []
    requires |Inserted(Inserted(map[], first), second)| == |second|
    ensures Happened(r) && r.events == TwoScans(b, first, second)
    ensures Last(r) == Sys(Empty(Some(Meta(b, Complete, Some(|second|))), Inserted(Inserted(map[], first), second)),
                           Idle, store)
  {
    r := ScanInterrupted(b, first, store);
    Seals(b, Inserted(map[], first), second);
    r := CommandSteps.ScanHappens(r, b, second, Empty(Some(Meta(b, Complete, Some(|second|))),
                                                      Inserted(Inserted(map[], first), second)));
  }

  // ---------------------------------------------------------------- what can be sealed

  lemma InsertOne(scan: map<Oid, Snapshot>, a: ScanRow)
    ensures Inserted(scan, [a])
            == if a.oid in scan then scan else scan[a.oid := Snapshot(a.payload, a.status, a.version)]
  {
    assert [a][..0] == [];
  }

  lemma InsertTwice(scan: map<Oid, Snapshot>, a: ScanRow)
    requires a.oid !in scan
    ensures Inserted(scan, [a, a]) == scan[a.oid := Snapshot(a.payload, a.status, a.version)]
  {
    assert [a, a][..1] == [a];
    InsertOne(scan, a);
  }

  lemma FitsApart(x: ScanRow, y: ScanRow)
    requires Fits([x, y])
    ensures Fits([x]) && Fits([y]) && Fits([y, y])
  {
    assert [x, y][0] == x && [x, y][1] == y;
  }

  lemma TwoAreListed(left: ScanRow, a: ScanRow)
    requires left.oid != a.oid
    ensures var scan := Inserted(Inserted(map[], [left]), [a, a]);
            left.oid in scan && |scan| == 2
    ensures left.oid !in Oids([a, a])
  {
    InsertOne(map[], left);
    InsertTwice(Inserted(map[], [left]), a);
    var scan := Inserted(Inserted(map[], [left]), [a, a]);
    assert scan.Keys == {left.oid, a.oid};
    assert |scan| == |scan.Keys| == 2;
  }

  /**
   With a repeated object id the counts agree and the list is sealed, although an object that
   the scan did not read is on it and takes the place of one.
   */
  lemma WrongListIsSealed(b: Binding, left: ScanRow, a: ScanRow, store: map<string, nat>) returns (r: Run)
    requires Fits([left, a]) && left.oid != a.oid
    ensures Happened(r) && r.events == TwoScans(b, [left], [a, a])
    ensures Sealed(Last(r).db) && left.oid in Last(r).db.scan && left.oid !in Oids([a, a])
  {
    FitsApart(left, a);
    TwoAreListed(left, a);
    r := ScanTwice(b, [left], [a, a], store);
  }

  lemma OneIsListed(left: ScanRow, now: ScanRow)
    requires left.oid == now.oid
    ensures var scan := Inserted(Inserted(map[], [left]), [now]);
            |scan| == 1 && scan.Keys == Oids([now]) && now.oid in scan && RowOf(scan, now.oid) == left
  {
    InsertOne(map[], left);
    InsertOne(Inserted(map[], [left]), now);
    var scan := Inserted(Inserted(map[], [left]), [now]);
    assert scan.Keys == {left.oid};
    assert |scan| == |scan.Keys| == 1;
    assert Oids([now]) == {now.oid} by {
      assert now in [now];
    }
  }

  /** A leftover row keeps its old snapshot in a list that is sealed all the same. */
  lemma StaleSnapshotIsSealed(b: Binding, left: ScanRow, now: ScanRow, store: map<string, nat>) returns (r: Run)
    requires Fits([left, now]) && left.oid == now.oid && left != now
    ensures Happened(r) && r.events == TwoScans(b, [left], [now])
    ensures Sealed(Last(r).db) && Last(r).db.scan.Keys == Oids([now])
    ensures RowOf(Last(r).db.scan, now.oid) == left
  {
    FitsApart(left, now);
    OneIsListed(left, now);
    r := ScanTwice(b, [left], [now], store);
  }

  // ---------------------------------------------------------------- object 0

  /** A table that holds object 0 is scanned without complaint. */
  lemma ZeroIsListed(b: Binding, zero: ScanRow, store: map<string, nat>) returns (r: Run)
    requires Fits([zero]) && zero.oid == 0
    ensures Happened(r) && r.events == TwoScans(b, [], [zero])
    ensures Last(r) == Sys(OnlyZero(b, zero), Idle, store)
    ensures Inserted(map[], [zero]).Keys == {0}
  {
    InsertOne(map[], zero);
    assert Inserted(map[], []) == map[];
    assert Inserted(map[], [zero]).Keys == {0};
    assert |Inserted(map[], [zero])| == |{0}|;
    r := ScanTwice(b, [], [zero], store);
  }

  /** The list that is sealed when object 0 is all there is. */
  function OnlyZero(b: Binding, zero: ScanRow): Db {
    Empty(Some(Meta(b, Complete, Some(1))), Inserted(map[], [zero]))
  }

  lemma ZeroIsAllocated(db: Db, target: nat, max: nat, id: TaskId)
    requires Inv(db) && Sealed(db) && db.tasks == map[] && db.members == map[] && db.scan.Keys == {0}
    requires 0 < target <= TWO_63 && 0 < max <= 100000
    ensures var r := Create(db, target, max, false, id);
            r.Ok? && r.value.Fresh? && Active(r.value.db, id, 0) && Sealed(r.value.db)
  {
    var r := Create(db, target, max, false, id);
    assert Pool(db, false) == {0} by {
      assert 0 in db.scan;
    }
    assert OpenTasks(db) == {};
    Batches.CreateEndsExactly(db, target, max, false, id);
    CreateFacts(db, target, max, false, id);
    var selected := r.value.selected;
    var last := selected[|selected| - 1];
    assert last in selected && last.oid in Oids(selected) && last.oid == 0;
    AllocatedRows(db, target, false, id, selected);
  }

  lemma CreateStep(s: Sys, target: nat, max: nat, id: TaskId, selected: seq<ScanRow>, made: Db)
    requires System.Ready(s) && NewId(s.db, id) && Create(s.db, target, max, false, id) == Ok(Fresh(selected, made))
    ensures Apply(s, Tasks(CreateTask(target, max, false, id))) == Some(s.(db := made, session := Idle))
  {
  }

  lemma ZeroIsSelected(b: Binding, zero: ScanRow, store: map<string, nat>, target: nat, max: nat, id: TaskId)
    returns (made: Db)
    requires Fits([zero]) && zero.oid == 0 && 0 < target <= TWO_63 && 0 < max <= 100000 && 0 < id
    ensures Active(made, id, 0) && Sealed(made)
    ensures Apply(Sys(OnlyZero(b, zero), Opened(b), store), Tasks(CreateTask(target, max, false, id)))
            == Some(Sys(made, Idle, store))
  {
    var r := ZeroIsListed(b, zero, store);
    AlwaysGood(r, |r.events|);
    var db := OnlyZero(b, zero);
    assert Last(r).db == db;
    ZeroIsAllocated(db, target, max, id);
    var Fresh(selected, after) := Create(db, target, max, false, id).value;
    made := after;
    CreateStep(Sys(db, Opened(b), store), target, max, id, selected, made);
  }

  /**
   Such an object is put into a task like any other. By `ObjectZero` no history that goes on
   from here finishes that task while the object is active in it.
   */
  lemma ZeroIsTaken(b: Binding, zero: ScanRow, store: map<string, nat>, target: nat, max: nat, id: TaskId)
    returns (r: Run)
    requires Fits([zero]) && zero.oid == 0 && 0 < target <= TWO_63 && 0 < max <= 100000 && 0 < id
    ensures Happened(r) && Sealed(Last(r).db) && Active(Last(r).db, id, 0)
    ensures r.events == TwoScans(b, [], [zero]) + [Open(b), Tasks(CreateTask(target, max, false, id))]
  {
    r := ZeroIsListed(b, zero, store);
    var db := OnlyZero(b, zero);
    assert Recover(db) == db;
    r := Extend(r, Open(b), Sys(db, Opened(b), store));
    var made := ZeroIsSelected(b, zero, store, target, max, id);
    r := Extend(r, Tasks(CreateTask(target, max, false, id)), Sys(made, Idle, store));
  }
}
