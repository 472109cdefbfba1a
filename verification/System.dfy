/**
 The whole tool over time: the ledger, the physical store, and the command that currently
 holds the execution lock. One event is one transaction, one storage request, or the end of
 a command; `Exit` may come at any point, so every command can die between any two of its
 transactions. `WriteBack` is somebody else putting a key into the bucket.
 */
module System {
  import opened Wrappers
  import opened Capacity
  import opened Ledger
  import opened Storage
  import PieceKeys

  /** What one emptiness check of one prefix ended with, retries included. */
  datatype Reply = Empty | NonEmpty | Unanswered

  datatype Looking = NoObject | Object(oid: Oid, replies: seq<Reply>)

  datatype Session =
    | Idle
    | Opened(binding: Binding)
    | Scanning(read: seq<ScanRow>)
    | Deferring(task: TaskId)
    | Purging(task: TaskId, halted: bool, work: map<Oid, Amount>)
    | Verifying(task: TaskId, generation: nat, count: nat, looking: Looking)

  datatype Sys = Sys(db: Db, session: Session, store: map<string, nat>)

  datatype ScanEvent = BindScan | StartScan | Insert(rows: seq<ScanRow>) | SealScan

  datatype TaskEvent =
    | CreateTask(target: nat, max: int, retry: bool, id: TaskId)
    | DeferOid(id: TaskId, oid: Oid, reason: string)
    | FinishDefer
    | ResumeTask(id: TaskId, reason: string)
    | HoldTask(id: TaskId, reason: string)
    | StartPurge(id: TaskId)
    | StartVerify(id: TaskId, restart: bool)

  datatype PurgeEvent =
    | Admit(oid: Oid)
    | Remove(oid: Oid, confirmed: set<string>, silent: set<string>)
    | Finish(oid: Oid)
    | GiveUp(oid: Oid)
    | Drop(oid: Oid)
    | HoldOid(oid: Oid, reason: string)
    | FinishPurge

  datatype VerifyEvent = Look(oid: Oid, reply: Reply) | Judge(oid: Oid) | FinishVerify

  datatype Event =
    | Open(binding: Binding)
    | Exit
    | WriteBack(key: string, size: nat)
    | Scanner(scan: ScanEvent)
    | Tasks(task: TaskEvent)
    | Purger(purge: PurgeEvent)
    | Verifier(verify: VerifyEvent)

  // ---------------------------------------------------------------- storage

  /** Keys listed under one of the two prefixes of an object. */
  function Under(store: map<string, nat>, o: Oid, i: nat): set<string>
    requires i < 2
  {
    Listed(store, PieceKeys.Prefixes(o)[i])
  }

  function Residues(store: map<string, nat>, o: Oid): set<string> {
    Under(store, o, 0) + Under(store, o, 1)
  }

  /** An answered emptiness check tells the truth about the moment it was made. */
  predicate Truthful(store: map<string, nat>, o: Oid, i: nat, reply: Reply)
    requires i < 2
  {
    (reply == Empty ==> Under(store, o, i) == {}) && (reply == NonEmpty ==> Under(store, o, i) != {})
  }

  /** checkObject: residue anywhere outweighs an unanswered check, which outweighs a pass. */
  function Verdict(replies: seq<Reply>): Check {
    if NonEmpty in replies then Residue
    else if Unanswered in replies then Error
    else Pass
  }

  // ---------------------------------------------------------------- steps

  /** openBound: the database belongs to this run and its list is sealed. */
  predicate Ready(s: Sys) {
    s.session.Opened? && Sealed(s.db) && s.db.meta.value.binding == s.session.binding
  }

  /** The tables after a transaction, and the session that goes on. */
  function Then(s: Sys, r: Result<Db, LedgerError>, next: Session): Option<Sys> {
    match r
    case Ok(db) => Some(s.(db := db, session := next))
    case Err(_) => None
  }

  function ScanStep(s: Sys, e: ScanEvent): Option<Sys> {
    match (e, s.session)
    case (BindScan, Opened(b)) => Then(s, Bind(s.db, b), s.session)
    case (StartScan, Opened(b)) =>
      if s.db.meta.Some? && s.db.meta.value.binding == b then Then(s, BeginScan(s.db), Scanning([])) else None
    case (Insert(rows), Scanning(read)) =>
      if Fits(rows) then Some(s.(db := InsertScan(s.db, rows), session := Scanning(read + rows))) else None
    case (SealScan, Scanning(read)) => Then(s, FinishScan(s.db, |read|), Idle)
    case _ => None
  }

  predicate NewId(db: Db, id: TaskId) {
    0 < id && forall t :: t in db.tasks ==> t < id
  }

  function StartedVerify(s: Sys, t: TaskId, db: Db): Sys
    requires t in db.tasks
  {
    if db.tasks[t].done then s.(session := Idle)
    else s.(db := db, session := Verifying(t, db.tasks[t].generation, db.tasks[t].objectCount, NoObject))
  }

  function VerifyStart(s: Sys, id: TaskId, restart: bool): Option<Sys> {
    if !Ready(s) then None
    else match ResolveVerify(s.db, id)
         case Err(_) => None
         case Ok(t) =>
           match BeginVerify(s.db, t, restart)
           case Err(_) => None
           case Ok(db) => if t in db.tasks then Some(StartedVerify(s, t, db)) else None
  }

  function TaskStep(s: Sys, e: TaskEvent): Option<Sys> {
    match e
    case CreateTask(target, max, retry, id) =>
      if !Ready(s) || !NewId(s.db, id) then None
      else (match Create(s.db, target, max, retry, id)
            case Ok(Fresh(_, db)) => Some(s.(db := db, session := Idle))
            case Ok(Existing(_)) => Some(s.(session := Idle))
            case Err(_) => None)
    case DeferOid(id, o, reason) =>
      if !Ready(s) then None
      else (match ResolveAdmin(s.db, id)
            case Ok(t) => Then(s, Defer(s.db, t, o, reason), Deferring(t))
            case Err(_) => None)
    case FinishDefer =>
      if s.session.Deferring? && s.session.task in s.db.tasks
      then Then(s, CompletePurge(s.db, s.session.task, s.db.tasks[s.session.task].objectCount), Idle) else None
    case ResumeTask(id, reason) =>
      if !Ready(s) then None
      else (match ResolveAdmin(s.db, id)
            case Ok(t) => Then(s, Resume(s.db, t, reason), Idle)
            case Err(_) => None)
    case HoldTask(id, reason) =>
      if !Ready(s) || reason == "" then None
      else (match ResolvePurge(s.db, id)
            case Ok(t) => Some(s.(db := Hold(s.db, t, None, reason), session := Idle))
            case Err(_) => None)
    case StartPurge(id) =>
      if !Ready(s) then None
      else (match ResolvePurge(s.db, id)
            case Ok(t) => Then(s, BeginPurge(s.db, t), Purging(t, false, map[]))
            case Err(_) => None)
    case StartVerify(id, restart) => VerifyStart(s, id, restart)
  }

  ghost function PurgeStep(s: Sys, e: PurgeEvent): Option<Sys> {
    if !s.session.Purging? then None
    else
      var Purging(t, halted, work) := s.session;
      match e
      case Admit(o) =>
        if halted || o in work || o == 0 || !Claimable(s.db, t, o) then None
        else Some(s.(session := Purging(t, halted, work[o := Amount(0, 0)])))
      case Remove(o, confirmed, silent) =>
        var gone := confirmed + silent;
        if o !in work || !(gone <= s.store.Keys) || !(confirmed !! silent)
           || (exists k :: k in gone && !PieceKeys.PieceOf(o, k)) then None
        else Some(s.(store := s.store - gone,
                     session := Purging(t, halted, work[o := Plus(work[o], Size(s.store, confirmed))])))
      case Finish(o) =>
        if o !in work then None
        else Then(s, RecordDone(s.db, t, o, work[o].keys, work[o].bytes), Purging(t, halted, work - {o}))
      case GiveUp(o) =>
        if o !in work then None
        else Then(s, RecordFail(s.db, t, o, work[o].keys, work[o].bytes), Purging(t, halted, work - {o}))
      case Drop(o) =>
        if o !in work then None else Some(s.(session := Purging(t, halted, work - {o})))
      case HoldOid(o, reason) =>
        if halted || o !in work || reason == "" then None
        else Some(s.(db := Hold(s.db, t, Some(o), reason), session := Purging(t, true, work)))
      case FinishPurge =>
        if halted || work != map[] || t !in s.db.tasks then None
        else Then(s, CompletePurge(s.db, t, s.db.tasks[t].objectCount), Idle)
  }

  function VerifyStep(s: Sys, e: VerifyEvent): Option<Sys> {
    if !s.session.Verifying? then None
    else
      var Verifying(t, generation, count, looking) := s.session;
      match (e, looking)
      case (Look(o, reply), NoObject) =>
        if 0 < o && Unverified(s.db, t, generation, o) && Truthful(s.store, o, 0, reply)
        then Some(s.(session := Verifying(t, generation, count, Object(o, [reply])))) else None
      case (Look(o, reply), Object(p, replies)) =>
        if o == p && |replies| == 1 && Truthful(s.store, o, 1, reply)
        then Some(s.(session := Verifying(t, generation, count, Object(o, replies + [reply])))) else None
      case (Judge(o), Object(p, replies)) =>
        if o == p && |replies| == 2
        then Then(s, RecordVerify(s.db, t, generation, o, Verdict(replies)), Verifying(t, generation, count, NoObject))
        else None
      case (FinishVerify, NoObject) => Then(s, CompleteVerify(s.db, t, generation, count), Idle)
      case _ => None
  }

  /** One event; `None` when it cannot happen or is refused. */
  ghost function Apply(s: Sys, e: Event): Option<Sys> {
    match e
    case Open(b) => if s.session.Idle? then Some(s.(db := Recover(s.db), session := Opened(b))) else None
    case Exit => Some(s.(session := Idle))
    case WriteBack(key, size) => if key in s.store then None else Some(s.(store := s.store[key := size]))
    case Scanner(scan) => ScanStep(s, scan)
    case Tasks(task) => TaskStep(s, task)
    case Purger(purge) => PurgeStep(s, purge)
    case Verifier(verify) => VerifyStep(s, verify)
  }

  // ---------------------------------------------------------------- runs

  /** A history of the tool: the states it went through and the events between them. */
  datatype Run = Run(states: seq<Sys>, events: seq<Event>)

  ghost predicate Initial(s: Sys) {
    s.db == EMPTY && s.session == Idle
  }

  ghost predicate Happened(r: Run) {
    && |r.states| == |r.events| + 1
    && Initial(r.states[0])
    && forall i {:trigger Apply(r.states[i], r.events[i])} :: 0 <= i < |r.events| ==>
         Apply(r.states[i], r.events[i]) == Some(r.states[i + 1])
  }

  function Last(r: Run): Sys
    requires r.states != []
  {
    r.states[|r.states| - 1]
  }

  /** A history goes on with any event that can happen where it ends. */
  lemma Extend(r: Run, e: Event, next: Sys) returns (more: Run)
    requires Happened(r) && Apply(Last(r), e) == Some(next)
    ensures Happened(more) && more.events == r.events + [e] && Last(more) == next && r.states <= more.states
  {
    more := Run(r.states + [next], r.events + [e]);
    forall i | 0 <= i < |more.events|
      ensures Apply(more.states[i], more.events[i]) == Some(more.states[i + 1])
    {
      if i < |r.events| {
        assert Apply(r.states[i], r.events[i]) == Some(r.states[i + 1]);
      }
    }
  }

  /** The ledger at the moments `i` to `j` of a history. */
  function Tables(r: Run, i: nat, j: nat): seq<Db>
    requires i <= j < |r.states|
  {
    seq(j + 1 - i, n requires 0 <= n < j + 1 - i => r.states[i + n].db)
  }
}
