/**
 The loops of the verify and scan commands as events of the tool's state machine: what they are
 proved to record is what a history of the machine records, so the theorems about histories
 speak of them.
 */
module CommandSteps {
  import opened Wrappers
  import opened Capacity
  import opened Ledger
  import opened Storage
  import opened System
  import VerifyRun
  import ScanRun
  import Keyset
  import PieceKeys

  // ---------------------------------------------------------------- verification

  function Examination(x: VerifyRun.Examined): seq<Event>
    requires |x.replies| == 2
  {
    [Verifier(Look(x.oid, x.replies[0])), Verifier(Look(x.oid, x.replies[1])), Verifier(Judge(x.oid))]
  }

  function Examinations(asked: seq<VerifyRun.Examined>): seq<Event>
    requires forall i :: 0 <= i < |asked| ==> |asked[i].replies| == 2
  {
    if asked == [] then []
    else Examinations(asked[..|asked| - 1]) + Examination(asked[|asked| - 1])
  }

  lemma LooksHappen(s: Sys, o: Oid, a: Reply, b: Reply)
    requires s.session.Verifying? && s.session.looking == NoObject
    requires 0 < o && Unverified(s.db, s.session.task, s.session.generation, o)
    requires Truthful(s.store, o, 0, a) && Truthful(s.store, o, 1, b)
    ensures var first := s.(session := s.session.(looking := Object(o, [a])));
            && Apply(s, Verifier(Look(o, a))) == Some(first)
            && Apply(first, Verifier(Look(o, b))) == Some(s.(session := s.session.(looking := Object(o, [a, b]))))
  {
    assert [a] + [b] == [a, b];
  }

  lemma JudgeHappens(s: Sys, o: Oid, a: Reply, b: Reply, after: Db)
    requires s.session.Verifying? && s.session.looking == Object(o, [a, b])
    requires RecordVerify(s.db, s.session.task, s.session.generation, o, Verdict([a, b])) == Ok(after)
    ensures Apply(s, Verifier(Judge(o))) == Some(s.(db := after, session := s.session.(looking := NoObject)))
  {
  }

  /** One examination and its record are two looks and a judgement. */
  lemma ExaminationHappens(r: Run, x: VerifyRun.Examined, retries: nat, after: Db) returns (more: Run)
    requires Happened(r) && Last(r).session.Verifying? && Last(r).session.looking == NoObject
    requires VerifyRun.Faithful(x, Last(r).store, retries) && 0 < x.oid
    requires var Verifying(t, g, _, _) := Last(r).session;
             && Unverified(Last(r).db, t, g, x.oid)
             && RecordVerify(Last(r).db, t, g, x.oid, Verdict(x.replies)) == Ok(after)
    ensures Happened(more) && more.events == r.events + Examination(x) && Last(more) == Last(r).(db := after)
  {
    var s, o, a, b := Last(r), x.oid, x.replies[0], x.replies[1];
    assert x.replies == [a, b];
    LooksHappen(s, o, a, b);
    JudgeHappens(s.(session := s.session.(looking := Object(o, [a, b]))), o, a, b, after);
    more := Extend(r, Verifier(Look(o, a)), s.(session := s.session.(looking := Object(o, [a]))));
    more := Extend(more, Verifier(Look(o, b)), s.(session := s.session.(looking := Object(o, [a, b]))));
    more := Extend(more, Verifier(Judge(o)), s.(db := after));
  }

  lemma RecordSucceeds(db: Db, t: TaskId, generation: nat, o: Oid, replies: seq<Reply>)
    ensures RecordVerify(db, t, generation, o, Verdict(replies)).Ok?
  {
  }

  /** What has not been examined yet is still unverified. */
  lemma StillUnverified(db: Db, t: TaskId, g: nat, asked: seq<VerifyRun.Examined>, o: Oid)
    requires Unverified(db, t, g, o) && o !in VerifyRun.OidsAsked(asked)
    ensures Unverified(VerifyRun.Noted(db, t, g, asked), t, g, o)
  {
    VerifyRun.NotedElsewhere(db, t, g, asked, (t, o));
  }

  /** The examinations before the last one. */
  lemma ButTheLast(asked: seq<VerifyRun.Examined>, store: map<string, nat>, retries: nat)
    requires asked != [] && VerifyRun.AllFaithful(asked, store, retries) && Keyset.Ascending(VerifyRun.OidsAsked(asked))
    ensures var init, x := asked[..|asked| - 1], asked[|asked| - 1];
            && asked == init + [x] && VerifyRun.AllFaithful(init, store, retries)
            && Keyset.Ascending(VerifyRun.OidsAsked(init)) && x.oid !in VerifyRun.OidsAsked(init)
  {
    var init, x := asked[..|asked| - 1], asked[|asked| - 1];
    assert asked == init + [x];
    VerifyRun.SentSnoc(init, x);
  }

  /**
   The examinations that a verification run records, in its order, are a history of the state
   machine, and the tables it leaves are those of that history.
   */
  lemma {:induction false} RunHappens(r: Run, asked: seq<VerifyRun.Examined>, retries: nat) returns (more: Run)
    requires Happened(r) && Last(r).session.Verifying? && Last(r).session.looking == NoObject
    requires VerifyRun.AllFaithful(asked, Last(r).store, retries) && Keyset.Ascending(VerifyRun.OidsAsked(asked))
    requires forall i :: 0 <= i < |asked| ==>
               && 0 < asked[i].oid
               && Unverified(Last(r).db, Last(r).session.task, Last(r).session.generation, asked[i].oid)
    ensures forall i :: 0 <= i < |asked| ==> |asked[i].replies| == 2
    ensures Happened(more) && more.events == r.events + Examinations(asked)
    ensures Last(more) == Last(r).(db := VerifyRun.Noted(Last(r).db, Last(r).session.task, Last(r).session.generation,
                                                         asked))
    decreases |asked|
  {
    assert forall i :: 0 <= i < |asked| ==> VerifyRun.Faithful(asked[i], Last(r).store, retries);
    var Verifying(t, g, _, _) := Last(r).session;
    var db := Last(r).db;
    if asked == [] {
      more := r;
      assert r.events + [] == r.events;
    } else {
      var init, x := asked[..|asked| - 1], asked[|asked| - 1];
      ButTheLast(asked, Last(r).store, retries);
      more := RunHappens(r, init, retries);
      StillUnverified(db, t, g, init, x.oid);
      var now := VerifyRun.Noted(db, t, g, init);
      RecordSucceeds(now, t, g, x.oid, x.replies);
      var after := RecordVerify(now, t, g, x.oid, Verdict(x.replies)).value;
      more := ExaminationHappens(more, x, retries, after);
      Grouped(r.events, Examinations(init), Examination(x));
    }
  }

  // ---------------------------------------------------------------- scan

  lemma BindHappens(db: Db, store: map<string, nat>, b: Binding, bound: Db)
    requires Bind(db, b) == Ok(bound)
    ensures bound.meta.Some? && bound.meta.value.binding == b
    ensures Apply(Sys(db, Opened(b), store), Scanner(BindScan)) == Some(Sys(bound, Opened(b), store))
  {
  }

  lemma StartHappens(db: Db, store: map<string, nat>, b: Binding, begun: Db)
    requires db.meta.Some? && db.meta.value.binding == b && BeginScan(db) == Ok(begun)
    ensures Apply(Sys(db, Opened(b), store), Scanner(StartScan)) == Some(Sys(begun, Scanning([]), store))
  {
  }

  lemma InsertHappens(db: Db, store: map<string, nat>, rows: seq<ScanRow>)
    requires Fits(rows)
    ensures Apply(Sys(db, Scanning([]), store), Scanner(Insert(rows)))
            == Some(Sys(InsertScan(db, rows), Scanning([] + rows), store))
  {
  }

  lemma SealHappens(db: Db, store: map<string, nat>, rows: seq<ScanRow>, after: Db)
    requires FinishScan(db, |rows|) == Ok(after)
    ensures Apply(Sys(db, Scanning(rows), store), Scanner(SealScan)) == Some(Sys(after, Idle, store))
  {
  }

  lemma ScanOpens(r: Run, b: Binding, bound: Db) returns (more: Run)
    requires Happened(r) && Last(r).session == Idle && Bind(Recover(Last(r).db), b) == Ok(bound)
    ensures Happened(more) && Last(more) == Sys(bound, Opened(b), Last(r).store)
    ensures more.events == r.events + [Open(b), Scanner(BindScan)]
  {
    var db := Recover(Last(r).db);
    more := Extend(r, Open(b), Sys(db, Opened(b), Last(r).store));
    BindHappens(db, Last(r).store, b, bound);
    more := Extend(more, Scanner(BindScan), Sys(bound, Opened(b), Last(r).store));
  }

  /** The command up to the point where it reads the source. */
  lemma ScanBegins(r: Run, b: Binding, begun: Db) returns (more: Run)
    requires Happened(r) && Last(r).session == Idle && ScanRun.Prepared(Last(r).db, b) == Ok(begun)
    ensures Happened(more) && Last(more) == Sys(begun, Scanning([]), Last(r).store)
    ensures more.events == r.events + [Open(b), Scanner(BindScan), Scanner(StartScan)]
  {
    var bound := Bind(Recover(Last(r).db), b).value;
    BindHappens(Recover(Last(r).db), Last(r).store, b, bound);
    more := ScanOpens(r, b, bound);
    StartHappens(bound, Last(r).store, b, begun);
    more := Extend(more, Scanner(StartScan), Sys(begun, Scanning([]), Last(r).store));
  }

  lemma ScanReads(r: Run, rows: seq<ScanRow>) returns (more: Run)
    requires Happened(r) && Last(r).session == Scanning([]) && Fits(rows)
    ensures Happened(more) && more.events == r.events + [Scanner(Insert(rows))]
    ensures Last(more) == Sys(InsertScan(Last(r).db, rows), Scanning(rows), Last(r).store)
  {
    InsertHappens(Last(r).db, Last(r).store, rows);
    assert [] + rows == rows;
    more := Extend(r, Scanner(Insert(rows)), Sys(InsertScan(Last(r).db, rows), Scanning(rows), Last(r).store));
  }

  function ScanEvents(b: Binding, read: seq<ScanRow>): seq<Event> {
    [Open(b), Scanner(BindScan), Scanner(StartScan), Scanner(Insert(read)), Scanner(SealScan)]
  }

  /** A scan that ends well is a history of the state machine, and its tables are those of that history. */
  lemma ScanHappens(r: Run, b: Binding, read: seq<ScanRow>, after: Db) returns (more: Run)
    requires Happened(r) && Last(r).session == Idle && Fits(read)
    requires ScanRun.Scanned(Last(r).db, b, read) == Ok(after)
    ensures Happened(more) && Last(more) == Sys(after, Idle, Last(r).store)
    ensures more.events == r.events + ScanEvents(b, read)
  {
    var begun := ScanRun.Prepared(Last(r).db, b).value;
    more := ScanBegins(r, b, begun);
    more := ScanReads(more, read);
    SealHappens(InsertScan(begun, read), Last(r).store, read, after);
    more := Extend(more, Scanner(SealScan), Sys(after, Idle, Last(r).store));
  }
}
