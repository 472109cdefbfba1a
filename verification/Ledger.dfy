/**
 The subtask ledger (internal/progress): six tables and the transactions on them. A table is
 a map from its primary key; a transaction is a function from the tables to the new tables or
 to the refusal the program returns. A refused transaction leaves the tables as they were.

 Timestamps that are only tested for NULL are booleans. The digest of a manifest is a
 function of its row list, so the model keeps the list itself.
 */
module Ledger {
  import opened Wrappers
  import opened Capacity
  import Keyset

  type TaskId = nat
  type Oid = nat
  type RowKey = (TaskId, Oid)

  /** task_meta: which bucket of which storage provider this database belongs to. */
  datatype Binding = Binding(chainId: string, spOperator: string, storage: string, spDb: string,
                             bucket: string, bucketId: nat)
  datatype ScanStatus = NotScanned | Running | Complete
  datatype Meta = Meta(binding: Binding, scan: ScanStatus, scanRows: Option<nat>)

  /** scan_objects: the snapshot of one object. */
  datatype Snapshot = Snapshot(payload: nat, status: string, version: int)

  /** purge_progress: the result of processing one object, with cumulative counters. */
  datatype Status = Done | Failed
  datatype Progress = Progress(status: Status, keys: nat, bytes: nat)

  /** purge_tasks: one batch. */
  datatype Phase = Ready | Purge | Verify
  datatype Task = Task(target: nat, objectCount: nat, logicalBytes: nat, digest: seq<ScanRow>, phase: Phase,
                       holdReason: string, holdOid: Option<Oid>, generation: nat, purged: bool, done: bool)

  /** task_objects: one assignment of an object to a batch. */
  datatype Check = Pending | Pass | Residue | Error
  datatype Member = Member(deferred: bool, generation: nat, check: Check)

  /** task_events: the operator's decisions. */
  datatype Action = Deferral(task: TaskId, oid: Oid, reason: string) | Resumption(task: TaskId, reason: string)

  datatype Db = Db(meta: Option<Meta>, scan: map<Oid, Snapshot>, progress: map<Oid, Progress>,
                   tasks: map<TaskId, Task>, members: map<RowKey, Member>, audit: seq<Action>)

  datatype LedgerError =
    | UnboundData | WrongTask | ScanSealed | TasksExist | EmptyScan | CountDiffers | ScanIncomplete
    | BadRequest | SizeOverflow | SafetyHold | NoCurrentTask | MultipleUnfinished | TaskMismatch
    | LegacyResults | NoUnassigned | NoSuchTask | AlreadyVerified | TaskClosed | ManifestChanged
    | DeletionIncomplete | NotMarked | Unprocessed | InvalidResult | VerificationIncomplete
    | NotFinalized | NoVerifyTask | BadReason | CompletedTask | UnrelatedHold | NotMember | NotHeld

  const EMPTY: Db := Db(None, map[], map[], map[], map[], [])

  // ---------------------------------------------------------------- queries

  predicate Held(s: Task) {
    s.holdReason != ""
  }

  /** RequireNoSafetyHold. */
  predicate NoHold(db: Db) {
    forall t :: t in db.tasks ==> !Held(db.tasks[t])
  }

  predicate Sealed(db: Db) {
    db.meta.Some? && db.meta.value.scan == Complete
  }

  /** The rows of task_objects for one task. */
  function Rows(db: Db, t: TaskId): set<RowKey> {
    set k | k in db.members && k.0 == t
  }

  function MemberOids(db: Db, t: TaskId): set<Oid> {
    set k | k in db.members && k.0 == t :: k.1
  }

  /** A member that is not deferred. */
  predicate Active(db: Db, t: TaskId, o: Oid) {
    (t, o) in db.members && !db.members[(t, o)].deferred
  }

  predicate Assigned(db: Db, o: Oid) {
    exists k :: k in db.members && k.1 == o
  }

  /** No later assignment of the same object. */
  predicate Newest(db: Db, k: RowKey) {
    forall j :: j in db.members && j.1 == k.1 ==> j.0 <= k.0
  }

  predicate Processed(db: Db, o: Oid) {
    o in db.progress && db.progress[o].status == Done
  }

  predicate Passed(db: Db, k: RowKey)
    requires k in db.members
  {
    k.0 in db.tasks && db.members[k].check == Pass && db.members[k].generation == db.tasks[k.0].generation
  }

  function RowOf(scan: map<Oid, Snapshot>, o: Oid): ScanRow
    requires o in scan
  {
    ScanRow(o, scan[o].payload, scan[o].status, scan[o].version)
  }

  function RowsOf(scan: map<Oid, Snapshot>, q: seq<Oid>): (r: seq<ScanRow>)
    requires forall i :: 0 <= i < |q| ==> q[i] in scan
    ensures |r| == |q| && forall i :: 0 <= i < |q| ==> r[i] == RowOf(scan, q[i])
  {
    seq(|q|, i requires 0 <= i < |q| => RowOf(scan, q[i]))
  }

  /** The scan rows of a set of objects, in object order. */
  function ScanRows(db: Db, s: set<Oid>): (r: seq<ScanRow>)
    ensures |r| == |s * db.scan.Keys|
  {
    var q := Keyset.Sorted(s * db.scan.Keys);
    assert forall i :: 0 <= i < |q| ==> q[i] in Keyset.Elements(q);
    RowsOf(db.scan, q)
  }

  /** CheckManifest: the members still present the rows recorded at creation. */
  predicate ManifestOk(db: Db, t: TaskId)
    requires t in db.tasks
  {
    var list := ScanRows(db, MemberOids(db, t));
    |list| == db.tasks[t].objectCount && list == db.tasks[t].digest
  }

  datatype SubCounts = SubCounts(total: nat, deferred: nat, pending: nat, failed: nat, processed: nat,
                                 verified: nat, residue: nat, errors: nat)

  /** One pass over the members of a task joined with its row and with purge_progress. */
  function Counts(db: Db, t: TaskId): SubCounts {
    SubCounts(
      |Rows(db, t)|,
      |set k | k in Rows(db, t) && db.members[k].deferred|,
      |set k | k in Rows(db, t) && !db.members[k].deferred && k.1 !in db.progress|,
      |set k | k in Rows(db, t) && !db.members[k].deferred && k.1 in db.progress && db.progress[k.1].status == Failed|,
      |set k | k in Rows(db, t) && !db.members[k].deferred && Processed(db, k.1)|,
      |set k | k in Rows(db, t) && !db.members[k].deferred && Passed(db, k)|,
      |set k | k in Rows(db, t) && !db.members[k].deferred && t in db.tasks
               && db.members[k].generation == db.tasks[t].generation && db.members[k].check == Residue|,
      |set k | k in Rows(db, t) && !db.members[k].deferred && t in db.tasks
               && db.members[k].generation == db.tasks[t].generation && db.members[k].check == Error|)
  }

  /** Objects of the scan list without any assignment. */
  function Unassigned(db: Db): set<Oid> {
    set o | o in db.scan && !Assigned(db, o)
  }

  /** Assignments that are deferred and not taken up by a later task. */
  function Unresolved(db: Db): set<RowKey> {
    set k | k in db.members && db.members[k].deferred && Newest(db, k)
  }

  /** Outstanding: what is left to allocate, and what was set aside. */
  function Outstanding(db: Db): (nat, nat) {
    (|Unassigned(db)|, |Unresolved(db)|)
  }

  // ---------------------------------------------------------------- task selection

  /** Tasks whose first deletion pass is not finished. */
  function OpenTasks(db: Db): set<TaskId> {
    set t | t in db.tasks && !db.tasks[t].done && !db.tasks[t].purged
  }

  /** selectCurrent over the open tasks; `expected` 0 accepts any. */
  function ResolveCurrent(db: Db, expected: TaskId): Result<TaskId, LedgerError> {
    var found := OpenTasks(db);
    if found == {} then Err(NoCurrentTask)
    else if |found| > 1 then Err(MultipleUnfinished)
    else
      var t := Keyset.Min(found);
      if expected != 0 && expected != t then Err(TaskMismatch) else Ok(t)
  }

  /** ResolvePurgeSubtask. */
  function ResolvePurge(db: Db, id: TaskId): Result<TaskId, LedgerError> {
    if !NoHold(db) then Err(SafetyHold)
    else if id != 0 && id !in db.tasks then Err(NoSuchTask)
    else if id != 0 && db.tasks[id].done then Err(AlreadyVerified)
    else if id != 0 && db.tasks[id].purged then Ok(id)
    else ResolveCurrent(db, id)
  }

  function AwaitingVerify(db: Db): set<TaskId> {
    set t | t in db.tasks && !db.tasks[t].done && db.tasks[t].purged
  }

  /** ResolveVerifySubtask: the named task, or the oldest one awaiting verification. */
  function ResolveVerify(db: Db, id: TaskId): Result<TaskId, LedgerError> {
    if id != 0 then (if id in db.tasks then Ok(id) else Err(NoSuchTask))
    else if AwaitingVerify(db) == {} then Err(NoVerifyTask)
    else Ok(Keyset.Min(AwaitingVerify(db)))
  }

  function HeldTasks(db: Db): set<TaskId> {
    set t | t in db.tasks && !db.tasks[t].done && Held(db.tasks[t])
  }

  /** ResolveAdminSubtask: the named task, else a held one, else the open one, else the oldest unverified one. */
  function ResolveAdmin(db: Db, id: TaskId): Result<TaskId, LedgerError> {
    if id != 0 then (if id in db.tasks then Ok(id) else Err(NoSuchTask))
    else if HeldTasks(db) != {} then Ok(Keyset.Min(HeldTasks(db)))
    else match ResolveCurrent(db, 0)
      case Ok(t) => Ok(t)
      case Err(e) => if e == NoCurrentTask then ResolveVerify(db, 0) else Err(e)
  }

  // ---------------------------------------------------------------- scan and seal

  /** Bind: the first run claims an empty database, every later run must match it. */
  function Bind(db: Db, b: Binding): Result<Db, LedgerError> {
    match db.meta
    case None =>
      if db.scan != map[] || db.progress != map[] then Err(UnboundData)
      else Ok(db.(meta := Some(Meta(b, NotScanned, None))))
    case Some(m) =>
      if m.binding == b then Ok(db) else Err(WrongTask)
  }

  function WithScan(db: Db, status: ScanStatus, rows: Option<nat>): Db {
    match db.meta
    case None => db
    case Some(m) => db.(meta := Some(m.(scan := status, scanRows := rows)))
  }

  function BeginScan(db: Db): Result<Db, LedgerError> {
    if Sealed(db) then Err(ScanSealed)
    else if db.tasks != map[] then Err(TasksExist)
    else Ok(WithScan(db, Running, None))
  }

  /** INSERT IGNORE: a row already present keeps its first snapshot. */
  function Inserted(scan: map<Oid, Snapshot>, rows: seq<ScanRow>): (r: map<Oid, Snapshot>)
    ensures r.Keys == scan.Keys + set x | x in rows :: x.oid
    ensures forall o :: o in scan ==> r[o] == scan[o]
  {
    if rows == [] then scan
    else
      var x := rows[|rows| - 1];
      var before := Inserted(scan, rows[..|rows| - 1]);
      assert rows == rows[..|rows| - 1] + [x];
      if x.oid in before then before else before[x.oid := Snapshot(x.payload, x.status, x.version)]
  }

  function InsertScan(db: Db, rows: seq<ScanRow>): Db {
    db.(scan := Inserted(db.scan, rows))
  }

  function FinishScan(db: Db, rows: nat): Result<Db, LedgerError> {
    if rows == 0 then Err(EmptyScan)
    else if |db.scan| != rows then Err(CountDiffers)
    else Ok(WithScan(db, Complete, Some(rows)))
  }

  // ---------------------------------------------------------------- allocation

  /** The candidates of a new task: objects never assigned, or deferred ones to retry. */
  function Pool(db: Db, retry: bool): set<Oid> {
    if !retry then Unassigned(db)
    else set o | o in db.scan && exists k :: k in db.members && k.1 == o && db.members[k].deferred
                                              && k.0 in db.tasks && db.tasks[k.0].purged && Newest(db, k)
  }

  predicate HasLegacyResults(db: Db) {
    exists o :: o in db.progress && !Assigned(db, o)
  }

  function Oids(rows: seq<ScanRow>): set<Oid> {
    set r | r in rows :: r.oid
  }

  function NewMembers(id: TaskId, oids: set<Oid>): map<RowKey, Member> {
    map o | o in oids :: (id, o) := Member(false, 0, Pending)
  }

  /** The statuses of the given objects become failed; their counters stay. */
  function Requeued(progress: map<Oid, Progress>, oids: set<Oid>): map<Oid, Progress> {
    map o | o in progress :: if o in oids then progress[o].(status := Failed) else progress[o]
  }

  /** The rows the creating transaction writes. */
  function Allocate(db: Db, target: nat, retry: bool, id: TaskId, selected: seq<ScanRow>): Db {
    db.(tasks :=
          db.tasks[id := Task(target, |selected|, Payload(selected), selected, Ready, "", None, 1, false, false)],
        members := db.members + NewMembers(id, Oids(selected)),
        progress := if retry then Requeued(db.progress, Oids(selected)) else db.progress)
  }

  /** `ORDER BY object_id LIMIT max` over the candidates. */
  function Candidates(db: Db, retry: bool, max: nat): (r: seq<ScanRow>)
    ensures |r| <= max
  {
    var q := Keyset.Sorted(Pool(db, retry));
    assert forall i :: 0 <= i < |q| ==> q[i] in Keyset.Elements(q);
    RowsOf(db.scan, Keyset.Take(q, max))
  }

  datatype Allocation = Existing(id: TaskId) | Fresh(selected: seq<ScanRow>, db: Db)

  /** CreateSubtask; `id` is the value AUTO_INCREMENT hands out. */
  function Create(db: Db, target: nat, max: int, retry: bool, id: TaskId): Result<Allocation, LedgerError> {
    if target == 0 || max <= 0 || max > 100000 then Err(BadRequest)
    else if !Sealed(db) then Err(ScanIncomplete)
    else if !NoHold(db) then Err(SafetyHold)
    else match ResolveCurrent(db, 0)
      case Ok(t) => Ok(Existing(t))
      case Err(e) =>
        if e != NoCurrentTask then Err(e)
        else if HasLegacyResults(db) then Err(LegacyResults)
        else Allot(db, target, max, retry, id)
  }

  /** The selection and, if it is not empty, the new batch. */
  function Allot(db: Db, target: nat, max: nat, retry: bool, id: TaskId): Result<Allocation, LedgerError> {
    match Select(Candidates(db, retry, max), target, max)
    case Err(_) => Err(SizeOverflow)
    case Ok(selected) =>
      if selected == [] then Err(NoUnassigned)
      else Ok(Fresh(selected, Allocate(db, target, retry, id, selected)))
  }

  // ---------------------------------------------------------------- purge

  function WithTask(db: Db, t: TaskId, s: Task): Db {
    db.(tasks := db.tasks[t := s])
  }

  /** Members whose last check found residue: purge must process them again. */
  function ResidueOids(db: Db, t: TaskId): set<Oid> {
    set k | k in db.members && k.0 == t && !db.members[k].deferred && db.members[k].check == Residue :: k.1
  }

  function BeginPurge(db: Db, t: TaskId): Result<Db, LedgerError> {
    if t !in db.tasks then Err(NoSuchTask)
    else if db.tasks[t].done || Held(db.tasks[t]) then Err(TaskClosed)
    else if !NoHold(db) then Err(SafetyHold)
    else if !ManifestOk(db, t) then Err(ManifestChanged)
    else
      var s := db.tasks[t];
      Ok(WithTask(db.(progress := Requeued(db.progress, ResidueOids(db, t))), t,
                  s.(phase := Purge, generation := s.generation + 1)))
  }

  /** ClaimSubtask's condition: what a purge run still has to process. */
  predicate Claimable(db: Db, t: TaskId, o: Oid) {
    Active(db, t, o) && o in db.scan && (!Processed(db, o) || db.members[(t, o)].check == Residue)
  }

  function ClaimableOids(db: Db, t: TaskId): set<Oid> {
    set k | k in db.members && k.0 == t && Claimable(db, t, k.1) :: k.1
  }

  function Credited(progress: map<Oid, Progress>, o: Oid, status: Status, keys: nat, bytes: nat): map<Oid, Progress> {
    var was := if o in progress then progress[o] else Progress(status, 0, 0);
    progress[o := Progress(status, was.keys + keys, was.bytes + bytes)]
  }

  /** DoneSubtask: the result and the removal of a stale check are one transaction. */
  function RecordDone(db: Db, t: TaskId, o: Oid, keys: nat, bytes: nat): Result<Db, LedgerError> {
    if !Active(db, t, o) then Err(NotMember)
    else Ok(db.(progress := Credited(db.progress, o, Done, keys, bytes),
                members := db.members[(t, o) := db.members[(t, o)].(generation := 0, check := Pending)]))
  }

  /** CheckMember followed by Fail. */
  function RecordFail(db: Db, t: TaskId, o: Oid, keys: nat, bytes: nat): Result<Db, LedgerError> {
    if !Active(db, t, o) then Err(NotMember)
    else Ok(db.(progress := Credited(db.progress, o, Failed, keys, bytes)))
  }

  /** CompletePurge; `count` is the object count the caller read. */
  function CompletePurge(db: Db, t: TaskId, count: nat): Result<Db, LedgerError> {
    var c := Counts(db, t);
    if c.total == 0 || c.total != count || c.pending + c.failed > 0 then Err(DeletionIncomplete)
    else if t !in db.tasks then Err(NoSuchTask)
    else if db.tasks[t].done || Held(db.tasks[t]) then Err(NotMarked)
    else Ok(WithTask(db, t, db.tasks[t].(purged := true, phase := Purge)))
  }

  // ---------------------------------------------------------------- safety latch and deferral

  const REASON_LIMIT := 3900

  /** Hold: a finished task is not held; a long reason is cut, never dropped. */
  function Hold(db: Db, t: TaskId, oid: Option<Oid>, reason: string): Db {
    if t in db.tasks && !db.tasks[t].done
    then WithTask(db, t, db.tasks[t].(holdReason := Keyset.Take(reason, REASON_LIMIT), holdOid := oid))
    else db
  }

  function Released(s: Task): Task {
    s.(holdReason := "", holdOid := None)
  }

  /** The characters that strings.TrimSpace cuts away: those of unicode.IsSpace. */
  predicate IsSpace(c: char) {
    || '\t' <= c <= '\r' || c == ' ' || c == '\U{85}' || c == '\U{A0}' || c == '\U{1680}'
    || '\U{2000}' <= c <= '\U{200A}' || c == '\U{2028}' || c == '\U{2029}' || c == '\U{202F}'
    || c == '\U{205F}' || c == '\U{3000}'
  }

  predicate Blank(reason: string) {
    forall i :: 0 <= i < |reason| ==> IsSpace(reason[i])
  }

  /** The rows of a deferral; it releases a hold, which is then one on this object. */
  function WithDeferral(db: Db, t: TaskId, o: Oid, reason: string): Db
    requires t in db.tasks && (t, o) in db.members
  {
    var s := db.tasks[t];
    db.(members := db.members[(t, o) := db.members[(t, o)].(deferred := true)],
        audit := db.audit + [Deferral(t, o, reason)],
        tasks := if Held(s) then db.tasks[t := Released(s)] else db.tasks)
  }

  /** DeferObject up to its commit; the program then tries CompletePurge. */
  function Defer(db: Db, t: TaskId, o: Oid, reason: string): Result<Db, LedgerError> {
    if t !in db.tasks then Err(NoSuchTask)
    else if Blank(reason) || |reason| > REASON_LIMIT then Err(BadReason)
    else if db.tasks[t].done then Err(CompletedTask)
    else if Held(db.tasks[t]) && db.tasks[t].holdOid != Some(o) then Err(UnrelatedHold)
    else if !Active(db, t, o) then Err(NotMember)
    else Ok(WithDeferral(db, t, o, reason))
  }

  /** ResumeSafety. */
  function Resume(db: Db, t: TaskId, reason: string): Result<Db, LedgerError> {
    if t !in db.tasks then Err(NoSuchTask)
    else if Blank(reason) then Err(BadReason)
    else if !Held(db.tasks[t]) then Err(NotHeld)
    else
      var s := db.tasks[t];
      var entry := Resumption(t, reason + "; previous hold: " + s.holdReason);
      Ok(WithTask(db.(audit := db.audit + [entry]), t, Released(s)))
  }

  // ---------------------------------------------------------------- verify

  function BeginVerify(db: Db, t: TaskId, restart: bool): Result<Db, LedgerError> {
    if t !in db.tasks then Err(NoSuchTask)
    else if Held(db.tasks[t]) then Err(SafetyHold)
    else if db.tasks[t].done && !restart then Ok(db)
    else if !ManifestOk(db, t) then Err(ManifestChanged)
    else
      var c := Counts(db, t);
      if c.pending + c.failed > 0 then Err(Unprocessed)
      else
        var s := db.tasks[t];
        Ok(WithTask(db, t, s.(phase := Verify, done := false, purged := true,
                              generation := if restart then s.generation + 1 else s.generation)))
  }

  /** VerifyPending's condition: members not passed in this generation. */
  predicate Unverified(db: Db, t: TaskId, generation: nat, o: Oid) {
    Active(db, t, o) && (db.members[(t, o)].generation != generation || db.members[(t, o)].check != Pass)
  }

  function UnverifiedOids(db: Db, t: TaskId, generation: nat): set<Oid> {
    set k | k in db.members && k.0 == t && Unverified(db, t, generation, k.1) :: k.1
  }

  function RecordVerify(db: Db, t: TaskId, generation: nat, o: Oid, check: Check): Result<Db, LedgerError> {
    if check == Pending then Err(InvalidResult)
    else if !Active(db, t, o) then Ok(db)
    else Ok(db.(members := db.members[(t, o) := db.members[(t, o)].(generation := generation, check := check)]))
  }

  function CompleteVerify(db: Db, t: TaskId, generation: nat, count: nat): Result<Db, LedgerError> {
    var c := Counts(db, t);
    if c.total != count || c.pending + c.failed > 0 || c.verified + c.deferred != c.total
    then Err(VerificationIncomplete)
    else if t !in db.tasks then Err(NoSuchTask)
    else
      var s := db.tasks[t];
      if !Held(s) && s.phase == Verify && s.generation == generation then Ok(WithTask(db, t, s.(done := true)))
      else if s.done then Ok(db) else Err(NotFinalized)
  }

  // ---------------------------------------------------------------- recovery

  predicate AllProcessed(db: Db, t: TaskId) {
    forall k :: k in db.members && k.0 == t && !db.members[k].deferred ==> Processed(db, k.1)
  }

  /** Every member was deleted but the milestone was not written. */
  predicate Recoverable(db: Db, t: TaskId)
    requires t in db.tasks
  {
    var s := db.tasks[t];
    && !s.purged && !Held(s) && s.objectCount > 0
    && (s.phase != Ready || forall k :: k in db.members && k.0 == t ==> db.members[k].deferred)
    && s.objectCount == |Rows(db, t)|
    && AllProcessed(db, t)
  }

  /** The last statement of EnsureSchema, run at the start of every locking command. */
  function Recover(db: Db): Db {
    db.(tasks := map t | t in db.tasks :: if Recoverable(db, t) then db.tasks[t].(purged := true) else db.tasks[t])
  }

  // ---------------------------------------------------------------- completion

  /** allDone, given the tables and whether some command holds the execution lock. */
  predicate AllDone(db: Db, locked: bool) {
    && Sealed(db) && db.meta.value.scanRows.Some? && db.meta.value.scanRows.value > 0
    && (exists t :: t in db.tasks && db.tasks[t].done)
    && |db.scan| > 0
    && Outstanding(db) == (0, 0)
    && (forall t :: t in db.tasks ==> db.tasks[t].done)
    && !locked
  }
}
