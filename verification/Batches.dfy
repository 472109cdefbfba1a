/**
 How repeated `task create` commands cut the sealed list into batches: in object order,
 without gaps or repetitions, each batch within its limits, and to the end of the list.
 */
module Batches {
  import opened Wrappers
  import opened Capacity
  import opened Ledger
  import opened LedgerInvariants
  import opened LedgerTheorems
  import opened System
  import opened SystemInvariants
  import opened Histories
  import Keyset

  /** Objects that have been assigned to some task. */
  function AssignedOids(db: Db): set<Oid> {
    set k | k in db.members :: k.1
  }

  lemma AssignedIsMember(db: Db, o: Oid)
    ensures o in AssignedOids(db) <==> Assigned(db, o)
  {
  }

  // ---------------------------------------------------------------- what a batch is worth

  /** A batch is one object, or several that are not oversize and stay below twice the target. */
  ghost predicate WithinTarget(target: nat, rows: seq<ScanRow>) {
    2 <= |rows| ==> Payload(rows) < 2 * target && forall i :: 0 <= i < |rows| ==> rows[i].payload <= target
  }

  ghost predicate Shaped(s: Task) {
    && 0 < |s.digest| <= 100000 && s.objectCount == |s.digest| && 0 < s.target
    && s.logicalBytes == Payload(s.digest) < TWO_64
    && WithinTarget(s.target, s.digest)
  }

  lemma CandidatesFit(db: Db, retry: bool, max: nat)
    requires Frozen(db)
    ensures Fits(Candidates(db, retry, max))
  {
    var rows, q := Candidates(db, retry, max), Keyset.Sorted(Pool(db, retry));
    assert forall i :: 0 <= i < |q| ==> q[i] in Keyset.Elements(q);
    forall i | 0 <= i < |rows| ensures rows[i].payload < TWO_64 {
      assert Keyset.Take(q, max)[i] == q[i] && rows[i] == RowOf(db.scan, q[i]);
    }
  }

  lemma SelectedShape(rows: seq<ScanRow>, target: nat, max: nat)
    requires Fits(rows) && Select(rows, target, max).Ok?
    ensures var selected := Select(rows, target, max).value;
            |selected| <= max && Payload(selected) < TWO_64 && WithinTarget(target, selected) && 0 < target
  {
    SelectFacts(rows, target, max);
    var selected := Select(rows, target, max).value;
    assert forall i :: 0 <= i < |selected| ==> selected[i] == rows[i];
  }

  lemma CreatedShape(db: Db, target: nat, max: int, retry: bool, id: TaskId, selected: seq<ScanRow>, after: Db)
    requires Frozen(db) && Create(db, target, max, retry, id) == Ok(Fresh(selected, after))
    ensures id in after.tasks && Shaped(after.tasks[id])
  {
    CreateAllots(db, target, max, retry, id);
    AllotSelects(db, target, max, retry, id);
    CandidatesFit(db, retry, max);
    SelectedShape(Candidates(db, retry, max), target, max);
  }

  /** The same tasks with the same members. */
  ghost predicate SameRows(db: Db, later: Db) {
    later.tasks.Keys == db.tasks.Keys && later.members.Keys == db.members.Keys
  }

  lemma BeginVerifyRows(db: Db, t: TaskId, restart: bool)
    ensures BeginVerify(db, t, restart).Ok? ==> SameRows(db, BeginVerify(db, t, restart).value)
  {
  }

  lemma TaskRows(s: Sys, e: TaskEvent)
    requires TaskStep(s, e).Some? && !e.CreateTask?
    ensures SameRows(s.db, TaskStep(s, e).value.db)
  {
    match e
    case StartVerify(id, restart) => BeginVerifyRows(s.db, ResolveVerify(s.db, id).value, restart);
    case _ =>
  }

  lemma PurgeRows(s: Sys, e: PurgeEvent)
    requires PurgeStep(s, e).Some?
    ensures SameRows(s.db, PurgeStep(s, e).value.db)
  {
  }

  lemma VerifyRows(s: Sys, e: VerifyEvent)
    requires VerifyStep(s, e).Some?
    ensures SameRows(s.db, VerifyStep(s, e).value.db)
  {
  }

  lemma ScanKeepsRows(s: Sys, e: ScanEvent)
    requires ScanStep(s, e).Some?
    ensures SameRows(s.db, ScanStep(s, e).value.db)
  {
  }

  predicate Creates(e: Event) {
    e.Tasks? && e.task.CreateTask?
  }

  lemma OnlyCreateAllocates(s: Sys, e: Event, next: Sys)
    requires Apply(s, e) == Some(next) && !Creates(e)
    ensures SameRows(s.db, next.db)
  {
    match e
    case Open(b) =>
    case Exit =>
    case WriteBack(key, size) =>
    case Scanner(scan) => ScanKeepsRows(s, scan);
    case Tasks(task) => TaskRows(s, task);
    case Purger(purge) => PurgeRows(s, purge);
    case Verifier(verify) => VerifyRows(s, verify);
  }

  lemma CreateAdds(s: Sys, e: Event, next: Sys, t: TaskId)
    requires Apply(s, e) == Some(next) && Creates(e) && t in next.db.tasks && t !in s.db.tasks
    ensures e.task.id == t
    ensures var r := Create(s.db, e.task.target, e.task.max, e.task.retry, t);
            r.Ok? && r.value.Fresh? && next.db == r.value.db
  {
  }

  lemma RowStaysShaped(s: Task, later: Task)
    requires Shaped(s) && RowForward(s, later)
    ensures Shaped(later)
  {
  }

  lemma TaskIsShapedNext(r: Run, n: nat, t: TaskId)
    requires Happened(r) && n < |r.events| && t in r.states[n + 1].db.tasks
    requires t in r.states[n].db.tasks ==> Shaped(r.states[n].db.tasks[t])
    ensures Shaped(r.states[n + 1].db.tasks[t])
  {
    AlwaysGood(r, n);
    var s, e := r.states[n], r.events[n];
    if t in s.db.tasks {
      ForwardAt(r, n);
      RowStaysShaped(s.db.tasks[t], r.states[n + 1].db.tasks[t]);
    } else {
      if !Creates(e) {
        OnlyCreateAllocates(s, e, r.states[n + 1]);
      }
      CreateAdds(s, e, r.states[n + 1], t);
      var made := Create(s.db, e.task.target, e.task.max, e.task.retry, t).value;
      CreatedShape(s.db, e.task.target, e.task.max, e.task.retry, t, made.selected, made.db);
    }
  }

  /** In every history, every task is a nonempty batch within its object limit and its target. */
  lemma {:induction false} EveryTaskIsShaped(r: Run, n: nat, t: TaskId)
    requires Happened(r) && n <= |r.events| && t in r.states[n].db.tasks
    ensures Shaped(r.states[n].db.tasks[t])
    decreases n
  {
    if n > 0 {
      if t in r.states[n - 1].db.tasks {
        EveryTaskIsShaped(r, n - 1, t);
      }
      TaskIsShapedNext(r, n - 1, t);
    }
  }

  // ---------------------------------------------------------------- the order of allocation

  /** The objects a first-time batch takes at this step, in order; empty for every other step. */
  function FirstTime(s: Sys, e: Event): seq<Oid> {
    if Creates(e) && !e.task.retry then
      match Create(s.db, e.task.target, e.task.max, false, e.task.id)
      case Ok(Fresh(selected, _)) => OidList(selected)
      case _ => []
    else []
  }

  /** The first-time batches of the first `n` steps; steps that create none count as empty. */
  function FirstTimes(r: Run, n: nat): (bs: seq<seq<Oid>>)
    requires n <= |r.events| && |r.states| == |r.events| + 1
    ensures |bs| == n
  {
    seq(n, i requires 0 <= i < n => FirstTime(r.states[i], r.events[i]))
  }

  function Concat(bs: seq<seq<Oid>>): seq<Oid> {
    if bs == [] then [] else Concat(bs[..|bs| - 1]) + bs[|bs| - 1]
  }

  function NonEmpty(bs: seq<seq<Oid>>): nat {
    if bs == [] then 0 else NonEmpty(bs[..|bs| - 1]) + if bs[|bs| - 1] == [] then 0 else 1
  }

  lemma {:induction false} NoMoreBatchesThanObjects(bs: seq<seq<Oid>>)
    ensures NonEmpty(bs) <= |Concat(bs)|
  {
    if bs != [] {
      NoMoreBatchesThanObjects(bs[..|bs| - 1]);
    }
  }

  /** A list that each step extends by its batch is the concatenation of the batches. */
  lemma {:induction false} ConcatChain(lists: seq<seq<Oid>>, bs: seq<seq<Oid>>)
    requires |lists| == |bs| + 1 && lists[0] == []
    requires forall i :: 0 <= i < |bs| ==> lists[i + 1] == lists[i] + bs[i]
    ensures lists[|bs|] == Concat(bs)
  {
    if bs != [] {
      ConcatChain(lists[..|bs|], bs[..|bs| - 1]);
      assert lists[|bs|] == lists[|bs| - 1] + bs[|bs| - 1];
    }
  }

  lemma AllocateAdds(db: Db, target: nat, retry: bool, id: TaskId, selected: seq<ScanRow>)
    ensures AssignedOids(Allocate(db, target, retry, id, selected)) == AssignedOids(db) + Oids(selected)
  {
    var after := Allocate(db, target, retry, id, selected);
    forall o | o in AssignedOids(db) + Oids(selected) ensures o in AssignedOids(after) {
      AllocateAssigns(db, target, retry, id, selected, o);
      AssignedIsMember(after, o);
      AssignedIsMember(db, o);
    }
    forall o | o in AssignedOids(after) ensures o in AssignedOids(db) + Oids(selected) {
      AllocateAssigns(db, target, retry, id, selected, o);
      AssignedIsMember(after, o);
      AssignedIsMember(db, o);
    }
  }

  /** First-time batches take the objects right after those already assigned. */
  lemma FirstTimeExtends(db: Db, target: nat, max: int, id: TaskId, selected: seq<ScanRow>, after: Db)
    requires Inv(db) && Create(db, target, max, false, id) == Ok(Fresh(selected, after))
    ensures OidList(selected) != []
    ensures Keyset.Sorted(AssignedOids(after)) == Keyset.Sorted(AssignedOids(db)) + OidList(selected)
  {
    CreateFacts(db, target, max, false, id);
    AllocateAdds(db, target, false, id, selected);
    OidListIsSorted(selected);
    forall x, y | x in AssignedOids(db) && y in Oids(selected) ensures x < y {
      AssignedIsMember(db, x);
      assert y in Pool(db, false) && x in db.scan;
    }
    Keyset.SortedAppend(AssignedOids(db), Oids(selected));
  }

  lemma RetriedIsAssigned(db: Db, o: Oid)
    requires o in Pool(db, true)
    ensures o in AssignedOids(db)
  {
    var k :| k in db.members && k.1 == o && db.members[k].deferred && k.0 in db.tasks && db.tasks[k.0].purged
          && Newest(db, k);
  }

  /** A retry assigns only objects that had been assigned before. */
  lemma RetryAddsNothing(db: Db, target: nat, max: int, id: TaskId, selected: seq<ScanRow>, after: Db)
    requires Frozen(db) && Create(db, target, max, true, id) == Ok(Fresh(selected, after))
    ensures AssignedOids(after) == AssignedOids(db)
  {
    CreateFacts(db, target, max, true, id);
    AllocateAdds(db, target, true, id, selected);
    forall o | o in Oids(selected) ensures o in AssignedOids(db) {
      RetriedIsAssigned(db, o);
    }
  }

  lemma OtherStepsKeepAssigned(s: Sys, e: Event, next: Sys)
    requires Apply(s, e) == Some(next) && !Creates(e)
    ensures AssignedOids(next.db) == AssignedOids(s.db)
  {
    OnlyCreateAllocates(s, e, next);
    SameKeysSameOids(s.db, next.db);
  }

  lemma SameKeysSameOids(db: Db, later: Db)
    requires later.members.Keys == db.members.Keys
    ensures AssignedOids(later) == AssignedOids(db)
  {
    assert forall k: RowKey :: k in later.members <==> k in db.members;
  }

  lemma CreateAllocates(db: Db, target: nat, max: int, retry: bool, id: TaskId, selected: seq<ScanRow>, after: Db)
    requires Inv(db) && Create(db, target, max, retry, id) == Ok(Fresh(selected, after))
    ensures Keyset.Sorted(AssignedOids(after))
         == Keyset.Sorted(AssignedOids(db)) + (if retry then [] else OidList(selected))
  {
    if retry {
      RetryAddsNothing(db, target, max, id, selected, after);
    } else {
      FirstTimeExtends(db, target, max, id, selected, after);
    }
  }

  lemma CreateStep(s: Sys, e: Event, next: Sys)
    requires Apply(s, e) == Some(next) && Creates(e)
    ensures var r := Create(s.db, e.task.target, e.task.max, e.task.retry, e.task.id);
            if r.Ok? && r.value.Fresh? then
              next.db == r.value.db && FirstTime(s, e) == if e.task.retry then [] else OidList(r.value.selected)
            else next.db == s.db && FirstTime(s, e) == []
  {
  }

  lemma CreateStepAllocates(s: Sys, e: Event, next: Sys)
    requires Inv(s.db) && Apply(s, e) == Some(next) && Creates(e)
    ensures Keyset.Sorted(AssignedOids(next.db)) == Keyset.Sorted(AssignedOids(s.db)) + FirstTime(s, e)
  {
    var CreateTask(target, max, retry, id) := e.task;
    var r := Create(s.db, target, max, retry, id);
    CreateStep(s, e, next);
    if r.Ok? && r.value.Fresh? {
      CreateAllocates(s.db, target, max, retry, id, r.value.selected, r.value.db);
    }
  }

  lemma StepAllocates(r: Run, n: nat)
    requires Happened(r) && n < |r.events|
    ensures Keyset.Sorted(AssignedOids(r.states[n + 1].db))
         == Keyset.Sorted(AssignedOids(r.states[n].db)) + FirstTime(r.states[n], r.events[n])
  {
    AlwaysGood(r, n);
    if Creates(r.events[n]) {
      CreateStepAllocates(r.states[n], r.events[n], r.states[n + 1]);
    } else {
      OtherStepsKeepAssigned(r.states[n], r.events[n], r.states[n + 1]);
    }
  }

  /** The assigned objects in object order, at the first `n` moments. */
  ghost function AssignedLists(r: Run, n: nat): (lists: seq<seq<Oid>>)
    requires n < |r.states|
    ensures |lists| == n + 1
    ensures forall i :: 0 <= i <= n ==> lists[i] == Keyset.Sorted(AssignedOids(r.states[i].db))
  {
    seq(n + 1, i requires 0 <= i <= n => Keyset.Sorted(AssignedOids(r.states[i].db)))
  }

  lemma AllocatedIsAssigned(r: Run, n: nat)
    requires Happened(r) && n <= |r.events|
    ensures Concat(FirstTimes(r, n)) == Keyset.Sorted(AssignedOids(r.states[n].db))
  {
    var lists, bs := AssignedLists(r, n), FirstTimes(r, n);
    assert AssignedOids(EMPTY) == {} && lists[0] == [];
    forall i | 0 <= i < n ensures lists[i + 1] == lists[i] + bs[i] {
      StepAllocates(r, i);
    }
    ConcatChain(lists, bs);
  }

  lemma AssignedAreListed(db: Db)
    requires Frozen(db)
    ensures AssignedOids(db) == db.scan.Keys - Unassigned(db) && AssignedOids(db) + Unassigned(db) == db.scan.Keys
  {
    forall o | o in db.scan ensures o in AssignedOids(db) <==> o !in Unassigned(db) {
      AssignedIsMember(db, o);
    }
    forall o | o in AssignedOids(db) ensures o in db.scan {
      var k :| k in db.members && k.1 == o;
    }
  }

  lemma AssignedComeFirst(db: Db)
    requires Frozen(db) && InOrder(db)
    ensures forall x, y :: x in AssignedOids(db) && y in Unassigned(db) ==> x < y
  {
    AssignedAreListed(db);
    forall x, y | x in AssignedOids(db) && y in Unassigned(db) ensures x < y {
      AssignedIsMember(db, x);
    }
  }

  lemma AssignedIsPrefix(db: Db)
    requires Frozen(db) && InOrder(db)
    ensures AssignedOids(db) == db.scan.Keys - Unassigned(db)
    ensures Keyset.Sorted(AssignedOids(db)) + Keyset.Sorted(Unassigned(db)) == Keyset.Sorted(db.scan.Keys)
  {
    AssignedAreListed(db);
    AssignedComeFirst(db);
    Keyset.SortedAppend(AssignedOids(db), Unassigned(db));
  }

  /**
   In every history, the first-time batches concatenated in the order of their creation are a
   prefix of the object list in object order; what is missing from it is what is unassigned.
   */
  lemma BatchesPartitionTheList(r: Run, n: nat)
    requires Happened(r) && n <= |r.events|
    ensures Concat(FirstTimes(r, n)) + Keyset.Sorted(Unassigned(r.states[n].db))
         == Keyset.Sorted(r.states[n].db.scan.Keys)
    ensures NonEmpty(FirstTimes(r, n)) <= |r.states[n].db.scan|
  {
    AlwaysGood(r, n);
    AllocatedIsAssigned(r, n);
    AssignedIsPrefix(r.states[n].db);
    NoMoreBatchesThanObjects(FirstTimes(r, n));
    assert |Concat(FirstTimes(r, n))| <= |Keyset.Sorted(r.states[n].db.scan.Keys)|;
  }

  // ---------------------------------------------------------------- when allocation ends

  lemma PoolHasCandidates(db: Db, retry: bool, max: nat)
    requires 0 < max
    ensures Candidates(db, retry, max) == [] <==> Pool(db, retry) == {}
  {
    Keyset.NoElements(Keyset.Sorted(Pool(db, retry)));
  }

  /** What `task create` answers once every guard lets it through. */
  lemma CreateProceeds(db: Db, target: nat, max: int, retry: bool, id: TaskId, selected: seq<ScanRow>)
    requires Sealed(db) && NoHold(db) && OpenTasks(db) == {} && !HasLegacyResults(db)
    requires 0 < target && 0 < max <= 100000 && Select(Candidates(db, retry, max), target, max) == Ok(selected)
    ensures Create(db, target, max, retry, id)
         == if selected == [] then Err(NoUnassigned) else Ok(Fresh(selected, Allocate(db, target, retry, id, selected)))
  {
    assert ResolveCurrent(db, 0) == Err(NoCurrentTask);
  }

  /**
   With valid limits, a sealed list, no hold and no open batch, `task create` makes a batch
   exactly while its pool is not empty: first-time allocation ends when the list is used up.
   */
  lemma CreateEndsExactly(db: Db, target: nat, max: int, retry: bool, id: TaskId)
    requires Inv(db) && Sealed(db) && NoHold(db) && OpenTasks(db) == {}
    requires 0 < target <= TWO_63 && 0 < max <= 100000
    ensures var r := Create(db, target, max, retry, id);
            (r.Ok? && r.value.Fresh? <==> Pool(db, retry) != {})
            && (r == Err(NoUnassigned) <==> Pool(db, retry) == {})
  {
    var rows := Candidates(db, retry, max);
    LedgerIsSound(db);
    PoolHasCandidates(db, retry, max);
    CandidatesFit(db, retry, max);
    SelectionSucceeds(rows, target, max);
    CreateProceeds(db, target, max, retry, id, Select(rows, target, max).value);
  }

  lemma SelectionSucceeds(rows: seq<ScanRow>, target: nat, max: nat)
    requires Fits(rows) && 0 < target <= TWO_63 && 0 < max
    ensures Select(rows, target, max).Ok? && (Select(rows, target, max).value == [] <==> rows == [])
  {
    NoOverflow(rows, target, max, 0);
    SelectFacts(rows, target, max);
  }
}
