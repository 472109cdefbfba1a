/**
 The scan (internal/bsdb and runScan): page through the live rows of the source table, insert
 them, compare the counts, and seal the list. What a sealed list is worth depends on two things
 the source may get wrong: repeated object ids, and rows left by an interrupted scan.
 */
module ScanRun {
  import opened Wrappers
  import opened Capacity
  import opened Ledger
  import opened ProgressDb
  import Keyset
  import Engine

  /** A live row of the source table, under its primary key. */
  datatype SourceRow = SourceRow(oid: Oid, payload: nat, status: string, version: int)

  const STATUS_PREFIX := "OBJECT_STATUS_"

  function TrimPrefix(s: string, prefix: string): string {
    if prefix <= s then s[|prefix|..] else s
  }

  function FromSource(r: SourceRow): ScanRow {
    ScanRow(r.oid, r.payload, TrimPrefix(r.status, STATUS_PREFIX), r.version)
  }

  /** The source table at one moment: its live rows under their primary keys, of 64 bits each. */
  type Table = map<nat, SourceRow>

  ghost predicate Wide(table: Table) {
    forall id :: id in table ==> id < TWO_64 && table[id].payload < TWO_64
  }

  /** The rows of some primary keys, in order. */
  function Read(table: Table, ids: seq<nat>): (rows: seq<ScanRow>)
    requires forall i :: 0 <= i < |ids| ==> ids[i] in table
    ensures |rows| == |ids| && forall i :: 0 <= i < |ids| ==> rows[i] == FromSource(table[ids[i]])
  {
    seq(|ids|, i requires 0 <= i < |ids| => FromSource(table[ids[i]]))
  }

  /** All live rows with a positive primary key, in primary key order. */
  function LiveRows(table: Table): (rows: seq<ScanRow>)
    ensures |rows| == |Keyset.Above(table.Keys, 0)|
  {
    var q := Keyset.Sorted(Keyset.Above(table.Keys, 0));
    assert forall i :: 0 <= i < |q| ==> q[i] in Keyset.Elements(q);
    Read(table, q)
  }

  // ---------------------------------------------------------------- what a scan has read

  /** The primary key was live at query `n` and looked like this. */
  ghost predicate LiveAt(tables: nat -> Table, n: nat, id: nat, row: ScanRow) {
    id in tables(n) && row == FromSource(tables(n)[id])
  }

  ghost predicate Seen(tables: nat -> Table, queries: nat, id: nat, row: ScanRow) {
    exists n: nat :: n < queries && LiveAt(tables, n, id, row)
  }

  ghost predicate UpTo(ids: seq<nat>, cursor: nat) {
    forall i :: 0 <= i < |ids| ==> ids[i] <= cursor
  }

  /** One row per primary key, in key order, each as it was at some query. */
  ghost predicate Genuine(tables: nat -> Table, queries: nat, ids: seq<nat>, read: seq<ScanRow>) {
    && |ids| == |read| && Keyset.Ascending(ids)
    && forall i :: 0 <= i < |ids| ==> 0 < ids[i] && Seen(tables, queries, ids[i], read[i])
  }

  ghost predicate Throughout(tables: nat -> Table, queries: nat, id: nat) {
    0 < id && forall n: nat :: n < queries ==> id in tables(n)
  }

  /** Every primary key up to the cursor that was live at every query is there. */
  ghost predicate Covered(tables: nat -> Table, queries: nat, ids: seq<nat>, cursor: nat) {
    forall id: nat :: Throughout(tables, queries, id) && id <= cursor ==> id in ids
  }

  /** Every primary key that was live at every query is there. */
  ghost predicate Complete(tables: nat -> Table, queries: nat, ids: seq<nat>) {
    forall id: nat :: Throughout(tables, queries, id) ==> id in ids
  }

  lemma SeenUnchanged(table: Table, tables: nat -> Table, queries: nat, id: nat, row: ScanRow)
    requires Seen(tables, queries, id, row) && forall n: nat :: n < queries ==> tables(n) == table
    ensures id in table && row == FromSource(table[id])
  {
    var n: nat :| n < queries && LiveAt(tables, n, id, row);
  }

  /** Of a table that does not change, that is every live row. */
  lemma UnchangedIsReadWhole(table: Table, tables: nat -> Table, queries: nat, ids: seq<nat>, read: seq<ScanRow>)
    requires 0 < queries && forall n: nat :: n < queries ==> tables(n) == table
    requires Genuine(tables, queries, ids, read) && Complete(tables, queries, ids)
    ensures read == LiveRows(table)
  {
    var live := Keyset.Above(table.Keys, 0);
    forall id: nat | id in live ensures id in ids {
      assert Throughout(tables, queries, id);
    }
    forall i | 0 <= i < |ids| ensures ids[i] in live && read[i] == FromSource(table[ids[i]]) {
      SeenUnchanged(table, tables, queries, ids[i], read[i]);
    }
    assert Keyset.Elements(ids) == live;
    Keyset.AscendingUnique(ids, Keyset.Sorted(live));
  }

  lemma SeenStays(tables: nat -> Table, n: nat, id: nat, row: ScanRow)
    requires Seen(tables, n, id, row)
    ensures Seen(tables, n + 1, id, row)
  {
    var m: nat :| m < n && LiveAt(tables, m, id, row);
    assert m < n + 1 && LiveAt(tables, m, id, row);
  }

  lemma GenuineStays(tables: nat -> Table, n: nat, ids: seq<nat>, read: seq<ScanRow>)
    requires Genuine(tables, n, ids, read)
    ensures Genuine(tables, n + 1, ids, read)
  {
    forall i | 0 <= i < |ids| ensures Seen(tables, n + 1, ids[i], read[i]) {
      SeenStays(tables, n, ids[i], read[i]);
    }
  }

  lemma PageIsSeen(tables: nat -> Table, n: nat, page: seq<nat>, i: nat)
    requires (forall j :: 0 <= j < |page| ==> page[j] in tables(n)) && i < |page|
    ensures Seen(tables, n + 1, page[i], Read(tables(n), page)[i])
  {
    assert LiveAt(tables, n, page[i], Read(tables(n), page)[i]);
  }

  lemma AscendingJoin(ids: seq<nat>, cursor: nat, page: seq<nat>)
    requires Keyset.Ascending(ids) && UpTo(ids, cursor)
    requires Keyset.Ascending(page) && forall i :: 0 <= i < |page| ==> cursor < page[i]
    ensures Keyset.Ascending(ids + page) && (page != [] ==> UpTo(ids + page, page[|page| - 1]))
  {
  }

  /** One more page: the rows of the query, above the cursor. */
  lemma GenuineGrows(tables: nat -> Table, n: nat, ids: seq<nat>, read: seq<ScanRow>, cursor: nat, page: seq<nat>)
    requires Genuine(tables, n, ids, read) && UpTo(ids, cursor)
    requires Keyset.Ascending(page) && forall i :: 0 <= i < |page| ==> page[i] in tables(n) && cursor < page[i]
    ensures Genuine(tables, n + 1, ids + page, read + Read(tables(n), page))
    ensures page != [] ==> UpTo(ids + page, page[|page| - 1])
  {
    var more, rows := ids + page, read + Read(tables(n), page);
    AscendingJoin(ids, cursor, page);
    GenuineStays(tables, n, ids, read);
    forall i | 0 <= i < |more| ensures 0 < more[i] && Seen(tables, n + 1, more[i], rows[i]) {
      if |ids| <= i {
        PageIsSeen(tables, n, page, i - |ids|);
      }
    }
  }

  lemma CoveredGrows(tables: nat -> Table, n: nat, ids: seq<nat>, cursor: nat, batch: nat, page: seq<nat>)
    requires Covered(tables, n, ids, cursor) && 0 < batch
    requires page == Keyset.Page(tables(n).Keys, cursor, batch) && page != []
    ensures Covered(tables, n + 1, ids + page, page[|page| - 1])
  {
    forall id: nat | Throughout(tables, n + 1, id) && id <= page[|page| - 1] ensures id in ids + page {
      assert Throughout(tables, n, id);
      if cursor < id {
        var j := Keyset.InPage(tables(n).Keys, cursor, batch, page, id);
      }
    }
  }

  lemma CoveredStays(tables: nat -> Table, n: nat, ids: seq<nat>, cursor: nat)
    requires Covered(tables, n, ids, cursor)
    ensures Covered(tables, n + 1, ids, cursor)
  {
    forall id: nat | Throughout(tables, n + 1, id) && id <= cursor ensures id in ids {
      assert Throughout(tables, n, id);
    }
  }

  /** A query that shows nothing beyond the cursor completes the scan. */
  lemma NothingBeyond(tables: nat -> Table, n: nat, ids: seq<nat>, cursor: nat, last: nat)
    requires Covered(tables, n, ids, cursor) && last < n && Keyset.Above(tables(last).Keys, cursor) == {}
    ensures Complete(tables, n, ids)
  {
    forall id: nat | Throughout(tables, n, id) ensures id in ids {
      assert id in tables(last).Keys;
      assert id !in Keyset.Above(tables(last).Keys, cursor);
    }
  }

  // ---------------------------------------------------------------- inserting

  /** Inserting two batches one after the other is inserting both at once. */
  lemma {:induction false} InsertedJoin(scan: map<Oid, Snapshot>, a: seq<ScanRow>, b: seq<ScanRow>)
    ensures Inserted(Inserted(scan, a), b) == Inserted(scan, a + b)
  {
    if b == [] {
      assert a + b == a;
    } else {
      assert (a + b)[..|a + b| - 1] == a + b[..|b| - 1];
      InsertedJoin(scan, a, b[..|b| - 1]);
    }
  }

  // ---------------------------------------------------------------- the loop

  datatype ScanError = ReadFailed | Unreconciled | Rejected(error: LedgerError)

  lemma FitsJoin(table: Table, ids: seq<nat>, read: seq<ScanRow>)
    requires Wide(table) && Fits(read) && forall i :: 0 <= i < |ids| ==> ids[i] in table
    ensures Fits(Read(table, ids)) && Fits(read + Read(table, ids))
  {
  }

  /** What has been read after `n` queries, the cursor standing at the last primary key. */
  ghost predicate ReadSoFar(tables: nat -> Table, n: nat, ids: seq<nat>, read: seq<ScanRow>, cursor: nat) {
    Genuine(tables, n, ids, read) && Covered(tables, n, ids, cursor) && UpTo(ids, cursor) && Fits(read)
  }

  lemma PageAdds(tables: nat -> Table, n: nat, ids: seq<nat>, read: seq<ScanRow>, cursor: nat, batch: nat,
                 page: seq<nat>)
    requires ReadSoFar(tables, n, ids, read, cursor) && Wide(tables(n)) && 0 < batch
    requires page == Keyset.Page(tables(n).Keys, cursor, batch) && page != []
    ensures ReadSoFar(tables, n + 1, ids + page, read + Read(tables(n), page), page[|page| - 1])
    ensures cursor < page[|page| - 1] < TWO_64 && Fits(Read(tables(n), page))
  {
    FitsJoin(tables(n), page, read);
    GenuineGrows(tables, n, ids, read, cursor, page);
    CoveredGrows(tables, n, ids, cursor, batch, page);
  }

  lemma NothingAdds(tables: nat -> Table, n: nat, ids: seq<nat>, read: seq<ScanRow>, cursor: nat)
    requires ReadSoFar(tables, n, ids, read, cursor)
    ensures ReadSoFar(tables, n + 1, ids, read, cursor)
  {
    GenuineStays(tables, n, ids, read);
    CoveredStays(tables, n, ids, cursor);
  }

  lemma ShortPageCompletes(tables: nat -> Table, n: nat, ids: seq<nat>, read: seq<ScanRow>, cursor: nat,
                           from: nat, batch: nat, page: seq<nat>)
    requires page == Keyset.Page(tables(n).Keys, from, batch) && |page| < batch
    requires cursor == (if page == [] then from else page[|page| - 1]) && ReadSoFar(tables, n + 1, ids, read, cursor)
    ensures Complete(tables, n + 1, ids)
  {
    Keyset.PageIsExact(tables(n).Keys, from, batch);
    if page != [] {
      Keyset.ShortPage(tables(n).Keys, from, batch, page);
    }
    NothingBeyond(tables, n + 1, ids, cursor, n);
  }

  /** One query and the insertion of its rows. */
  method ReadPage(tables: nat -> Table, n: nat, batch: nat, p: Database, cursor: nat,
                  ghost before: Db, ghost read: seq<ScanRow>, ghost ids: seq<nat>)
    returns (out: seq<ScanRow>, last: nat, ghost page: seq<nat>)
    requires p.Valid() && p.tasks == map[] && !Sealed(p.View()) && p.View() == InsertScan(before, read)
    requires ReadSoFar(tables, n, ids, read, cursor) && Wide(tables(n)) && 0 < batch
    modifies p`scan
    ensures p.Valid() && p.View() == InsertScan(before, read + out)
    ensures ReadSoFar(tables, n + 1, ids + page, read + out, last)
    ensures if out == [] then page == [] && last == cursor else cursor < last < TWO_64
    ensures |out| < batch ==> Complete(tables, n + 1, ids + page)
  {
    var q := Keyset.Page(tables(n).Keys, cursor, batch);
    out, page := Read(tables(n), q), q;
    last := if q == [] then cursor else q[|q| - 1];
    InsertedJoin(before.scan, read, out);
    if q == [] {
      NothingAdds(tables, n, ids, read, cursor);
      assert ids + page == ids && read + out == read;
    } else {
      PageAdds(tables, n, ids, read, cursor, batch, q);
      p.InsertScan(out);
    }
    if |out| < batch {
      ShortPageCompletes(tables, n, ids + page, read + out, last, cursor, batch, q);
    }
  }

  /** `ReadSoFar`, and all queries so far answered; seen into only where they are mentioned. */
  ghost predicate Underway(tables: nat -> Table, fails: nat -> bool, n: nat, ids: seq<nat>, read: seq<ScanRow>,
                        cursor: nat) {
    && cursor < TWO_64
    && (forall c {:trigger ReadSoFar(tables, n, ids, read, c)} :: c == cursor ==> ReadSoFar(tables, n, ids, read, c))
    && (forall m {:trigger Failing(fails, m, false)} :: m == n ==> Failing(fails, m, false))
  }

  /** Where the scan ends: at a failed query, or complete. */
  ghost predicate Halted(tables: nat -> Table, fails: nat -> bool, n: nat, ids: seq<nat>, read: seq<ScanRow>,
                         failed: bool) {
    && Failing(fails, n, failed) && Genuine(tables, n, ids, read) && Fits(read)
    && (!failed ==> Complete(tables, n, ids))
  }

  /** One query, answered or not. */
  method Query(tables: nat -> Table, fails: nat -> bool, n: nat, batch: nat, p: Database, cursor: nat,
               ghost before: Db, ghost read: seq<ScanRow>, ghost ids: seq<nat>)
    returns (failed: bool, out: seq<ScanRow>, last: nat, ghost page: seq<nat>)
    requires p.Valid() && p.tasks == map[] && !Sealed(p.View()) && p.View() == InsertScan(before, read)
    requires Underway(tables, fails, n, ids, read, cursor) && Wide(tables(n)) && 0 < batch
    modifies p`scan
    ensures p.Valid() && p.View() == InsertScan(before, read + out)
    ensures !failed ==> Underway(tables, fails, n + 1, ids + page, read + out, last)
    ensures !failed && batch <= |out| ==> cursor < last
    ensures failed || |out| < batch ==> Halted(tables, fails, n + 1, ids + page, read + out, failed)
  {
    assert ReadSoFar(tables, n, ids, read, cursor) && Failing(fails, n, false);
    OneMoreQuery(fails, n);
    failed, out, last, page := fails(n), [], cursor, [];
    if failed {
      NothingAdds(tables, n, ids, read, cursor);
      AndNoMore(ids);
      AndNoMore(read);
    } else {
      out, last, page := ReadPage(tables, n, batch, p, cursor, before, read, ids);
    }
  }

  lemma AndNoMore<T>(s: seq<T>)
    ensures s + [] == s
  {
  }

  /** Which of the queries fail; `asked` of them have been sent, and all but the last were answered. */
  ghost predicate Failing(fails: nat -> bool, asked: nat, failed: bool) {
    && (forall n: nat :: n + 1 < asked ==> !fails(n))
    && (failed <==> 0 < asked && fails(asked - 1))
  }

  lemma OneMoreQuery(fails: nat -> bool, asked: nat)
    requires Failing(fails, asked, false)
    ensures Failing(fails, asked + 1, fails(asked))
  {
  }

  lemma Begins(tables: nat -> Table, fails: nat -> bool, db: Db)
    ensures Underway(tables, fails, 0, [], [], 0) && InsertScan(db, []) == db
    ensures Genuine(tables, 0, [], []) && Fits([]) && Failing(fails, 0, false)
  {
  }

  /**
   Scan: page after page, while the table may change between the queries. Each primary key is
   read at most once and as it was then. It fails exactly when a query does; otherwise nothing
   that was there throughout is missing. What has been read has been inserted in any case.
   */
  method Scan(tables: nat -> Table, fails: nat -> bool, batch: nat, p: Database)
    returns (total: nat, err: Option<ScanError>, ghost read: seq<ScanRow>, ghost ids: seq<nat>, ghost queries: nat)
    requires p.Valid() && p.tasks == map[] && !Sealed(p.View()) && forall n: nat :: Wide(tables(n))
    modifies p`scan
    ensures p.Valid() && p.View() == InsertScan(old(p.View()), read) && total == |read| && Fits(read)
    ensures err == None || err == Some(ReadFailed)
    ensures Failing(fails, queries, err == Some(ReadFailed)) && (queries == 0 <==> batch == 0)
    ensures Genuine(tables, queries, ids, read)
    ensures err == None && 0 < batch ==> Complete(tables, queries, ids)
  {
    ghost var before := p.View();
    var n, lastId := 0, 0;
    total, err, read, ids, queries := 0, None, [], [], 0;
    Begins(tables, fails, before);
    if batch == 0 {
      return;
    }
    while true
      invariant p.Valid() && p.View() == InsertScan(before, read) && total == |read|
      invariant queries == n && Underway(tables, fails, n, ids, read, lastId)
      decreases TWO_64 - lastId
    {
      var failed, out;
      ghost var page;
      failed, out, lastId, page := Query(tables, fails, n, batch, p, lastId, before, read, ids);
      n, total := n + 1, total + |out|;
      read, ids, queries := read + out, ids + page, n;
      if failed {
        err := Some(ReadFailed);
        return;
      }
      if |out| < batch {
        return;
      }
    }
  }

  /** Reconcile: the counts before and after the scan agree with each other and with what was read. */
  function Reconcile(countBefore: nat, countAfter: nat, read: nat): Option<ScanError> {
    if countBefore != countAfter then Some(Unreconciled)
    else if read != countBefore then Some(Unreconciled)
    else None
  }

  // ---------------------------------------------------------------- what sealing proves

  predicate DistinctOids(rows: seq<ScanRow>) {
    forall i, j :: 0 <= i < j < |rows| ==> rows[i].oid != rows[j].oid
  }

  lemma OidIsListed(rows: seq<ScanRow>, o: Oid)
    ensures o in Oids(rows) <==> exists i :: 0 <= i < |rows| && rows[i].oid == o
  {
    if o in Oids(rows) {
      var r :| r in rows && r.oid == o;
    }
    if i :| 0 <= i < |rows| && rows[i].oid == o {
      assert rows[i] in rows;
    }
  }

  lemma OneMoreRow(rows: seq<ScanRow>, x: ScanRow)
    ensures Oids(rows + [x]) == Oids(rows) + {x.oid}
    ensures DistinctOids(rows + [x]) <==> DistinctOids(rows) && x.oid !in Oids(rows)
  {
    var all := rows + [x];
    OidIsListed(rows, x.oid);
    forall o ensures o in Oids(all) <==> o in Oids(rows) || o == x.oid {
      OidIsListed(rows, o);
      OidIsListed(all, o);
      assert all[|rows|] == x;
      assert forall i :: 0 <= i < |rows| ==> all[i] == rows[i];
    }
    assert forall i :: 0 <= i < |rows| ==> all[i] == rows[i];
    assert all[|rows|] == x;
  }

  lemma {:induction false} OidsSize(rows: seq<ScanRow>)
    ensures |Oids(rows)| <= |rows|
    ensures |Oids(rows)| == |rows| <==> DistinctOids(rows)
  {
    if rows != [] {
      var init, x := rows[..|rows| - 1], rows[|rows| - 1];
      assert rows == init + [x];
      OidsSize(init);
      OneMoreRow(init, x);
      assert x.oid in Oids(init) ==> Oids(init) + {x.oid} == Oids(init);
    }
  }

  /**
   A successful seal lists exactly the objects that this scan read, leftovers of interrupted
   scans notwithstanding, if and only if no object id was read twice.
   */
  lemma SealIsExact(db: Db, read: seq<ScanRow>)
    requires FinishScan(InsertScan(db, read), |read|).Ok?
    ensures InsertScan(db, read).scan.Keys == Oids(read) <==> DistinctOids(read)
  {
    var keys := InsertScan(db, read).scan.Keys;
    OidsSize(read);
    assert |InsertScan(db, read).scan| == |keys|;
    if DistinctOids(read) {
      assert Oids(read) <= keys;
      SameSize(Oids(read), keys);
    }
  }

  lemma SameSize(a: set<Oid>, whole: set<Oid>)
    requires a <= whole && |a| == |whole|
    ensures a == whole
  {
    assert whole == a + (whole - a);
  }

  /** What the list says of an object it did not have before is what some row says. */
  lemma {:induction false} InsertedFrom(scan: map<Oid, Snapshot>, rows: seq<ScanRow>, o: Oid) returns (j: nat)
    requires o in Inserted(scan, rows) && o !in scan
    ensures j < |rows| && rows[j].oid == o && RowOf(Inserted(scan, rows), o) == rows[j]
    decreases |rows|
  {
    var n := |rows| - 1;
    if o in Inserted(scan, rows[..n]) {
      j := InsertedFrom(scan, rows[..n], o);
    } else {
      j := n;
    }
  }

  /** The list agrees with everything that was read. */
  ghost predicate Current(scan: map<Oid, Snapshot>, read: seq<ScanRow>) {
    forall i :: 0 <= i < |read| ==> read[i].oid in scan && RowOf(scan, read[i].oid) == read[i]
  }

  ghost predicate LeftoversAgree(scan: map<Oid, Snapshot>, read: seq<ScanRow>) {
    forall i :: 0 <= i < |read| && read[i].oid in scan ==> RowOf(scan, read[i].oid) == read[i]
  }

  ghost predicate RepeatsAgree(read: seq<ScanRow>) {
    forall i, j :: 0 <= i < |read| && 0 <= j < |read| && read[i].oid == read[j].oid ==> read[i] == read[j]
  }

  /**
   The list says of every object what this scan read of it exactly when no leftover said
   otherwise and no two rows of one object differ.
   */
  lemma SnapshotsAreExact(db: Db, read: seq<ScanRow>)
    ensures Current(InsertScan(db, read).scan, read) <==> LeftoversAgree(db.scan, read) && RepeatsAgree(read)
  {
    var scan := InsertScan(db, read).scan;
    forall i | 0 <= i < |read|
      ensures read[i].oid in scan
      ensures read[i].oid in db.scan ==> RowOf(scan, read[i].oid) == RowOf(db.scan, read[i].oid)
    {
      assert read[i] in read;
    }
    if LeftoversAgree(db.scan, read) && RepeatsAgree(read) {
      forall i | 0 <= i < |read| ensures RowOf(scan, read[i].oid) == read[i] {
        if read[i].oid !in db.scan {
          var j := InsertedFrom(db.scan, read, read[i].oid);
          assert read[j] == read[i];
        }
      }
    }
  }

  // ---------------------------------------------------------------- the command

  /** The tables when the scan begins: recovery, binding, and the list marked incomplete. */
  function Prepared(db: Db, b: Binding): Result<Db, LedgerError> {
    match Ledger.Bind(Recover(db), b)
    case Err(e) => Err(e)
    case Ok(bound) => Ledger.BeginScan(bound)
  }

  /** The tables after a whole scan that read these rows. */
  function Scanned(db: Db, b: Binding, read: seq<ScanRow>): Result<Db, LedgerError> {
    match Prepared(db, b)
    case Err(e) => Err(e)
    case Ok(begun) => Ledger.FinishScan(InsertScan(begun, read), |read|)
  }

  method Prepare(p: Database, b: Binding) returns (err: Option<ScanError>)
    requires p.Valid()
    modifies p`tasks, p`meta
    ensures p.Valid()
    ensures match Prepared(old(p.View()), b)
            case Err(e) => err == Some(Rejected(e)) && (Sealed(p.View()) <==> Sealed(old(p.View())))
            case Ok(begun) => err == None && p.View() == begun && p.tasks == map[]
                              && !Sealed(old(p.View())) && !Sealed(begun) && begun.meta.Some?
  {
    p.EnsureSchema();
    var refused := p.Bind(b);
    if refused.Some? {
      return Some(Rejected(refused.value));
    }
    refused := p.BeginScan();
    if refused.Some? {
      return Some(Rejected(refused.value));
    }
    return None;
  }

  /** The last step: the list is sealed, or left as it is. */
  method Seal(p: Database, total: nat) returns (err: Option<ScanError>)
    requires p.Valid() && p.tasks == map[] && p.meta.Some?
    modifies p`meta
    ensures p.Valid()
    ensures err == None ==> Ok(p.View()) == Ledger.FinishScan(old(p.View()), total)
                            && total == |p.scan| > 0 && Sealed(p.View())
    ensures err.Some? ==> p.View() == old(p.View())
    ensures err.Some? <==> total == 0 || |p.scan| != total
    ensures err.Some? ==> err == Some(Rejected(if total == 0 then EmptyScan else CountDiffers))
  {
    var refused := p.FinishScan(total);
    if refused.Some? {
      return Some(Rejected(refused.value));
    }
    return None;
  }

  /** Inserting rows does not seal the list. */
  lemma InsertSealsNothing(db: Db, rows: seq<ScanRow>)
    ensures InsertScan(db, rows).meta == db.meta && InsertScan(db, rows).scan == Inserted(db.scan, rows)
    ensures Sealed(InsertScan(db, rows)) <==> Sealed(db)
  {
  }

  /**
   How a scan ends that was let begin: with a failed query; else, unless the two counts and the
   rows read agree, unreconciled; else, unless the list has as many rows, refused; else well.
   */
  ghost predicate ScanEnds(err: Option<ScanError>, failed: bool, countBefore: nat, countAfter: nat, read: nat,
                           listed: nat) {
    && (err == Some(ReadFailed) <==> failed)
    && (err == Some(Unreconciled) <==> !failed && !(countBefore == countAfter == read))
    && (err == Some(Rejected(CountDiffers)) <==> !failed && countBefore == countAfter == read != listed)
    && (err == None <==> !failed && countBefore == countAfter == read == listed)
  }

  /**
   runScan, with the two counts the source reports. Success means that the counts agree with
   what was read and with the list, which is sealed, and that nothing is missing that the table
   held throughout. Anything else leaves the list as unsealed as it was.
   */
  method RunScan(p: Database, b: Binding, countBefore: nat, countAfter: nat, tables: nat -> Table,
                 fails: nat -> bool, batch: nat)
    returns (err: Option<ScanError>, ghost read: seq<ScanRow>, ghost ids: seq<nat>, ghost queries: nat)
    requires p.Valid() && forall n: nat :: Wide(tables(n))
    modifies p
    ensures p.Valid()
    ensures Genuine(tables, queries, ids, read) && p.scan == Inserted(old(p.scan), read)
    ensures err == None ==> Ok(p.View()) == Scanned(old(p.View()), b, read) && Fits(read)
    ensures err == None ==> Sealed(p.View()) && countBefore == countAfter == |read| == |p.scan| > 0
    ensures err == None && 0 < batch ==> 0 < queries && Complete(tables, queries, ids)
    ensures err.Some? ==> (Sealed(p.View()) <==> Sealed(old(p.View())))
    ensures err == Some(Rejected(EmptyScan)) <==> countBefore == 0
    ensures 0 < countBefore ==>
              match Prepared(old(p.View()), b)
              case Err(e) => err == Some(Rejected(e)) && queries == 0
              case Ok(_) => (queries == 0 <==> batch == 0)
                            && AsItHad(fails, queries, err, countBefore, countAfter, |read|, |p.scan|)
  {
    read, ids, queries := [], [], 0;
    if countBefore == 0 {
      return Some(Rejected(EmptyScan)), read, ids, queries;
    }
    err := Prepare(p, b);
    if err.Some? {
      return;
    }
    ghost var begun := p.View();
    var total;
    total, err, read, ids, queries := Scan(tables, fails, batch, p);
    InsertSealsNothing(begun, read);
    if err.Some? {
      Ends(fails, queries, err, true, countBefore, countAfter, |read|, |p.scan|);
      return;
    }
    err := Reconcile(countBefore, countAfter, total);
    if err.Some? {
      Ends(fails, queries, err, false, countBefore, countAfter, |read|, |p.scan|);
      return;
    }
    err := Seal(p, total);
    Ends(fails, queries, err, false, countBefore, countAfter, |read|, |p.scan|);
  }

  lemma Ends(fails: nat -> bool, queries: nat, err: Option<ScanError>, failed: bool, countBefore: nat,
             countAfter: nat, read: nat, listed: nat)
    requires Failing(fails, queries, failed) && ScanEnds(err, failed, countBefore, countAfter, read, listed)
    ensures AsItHad(fails, queries, err, countBefore, countAfter, read, listed)
  {
  }

  ghost predicate AsItHad(fails: nat -> bool, queries: nat, err: Option<ScanError>, countBefore: nat,
                          countAfter: nat, read: nat, listed: nat) {
    exists failed :: Failing(fails, queries, failed) && ScanEnds(err, failed, countBefore, countAfter, read, listed)
  }
}
