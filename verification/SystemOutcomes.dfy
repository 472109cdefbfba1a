/**
 When each event of the tool can happen, and what it comes to: in a state that a history can
 reach, an event is refused exactly for the reasons an operator can see in the tables.
 */
module SystemOutcomes {
  import opened Wrappers
  import opened Capacity
  import opened Ledger
  import opened LedgerInvariants
  import opened LedgerTheorems
  import opened LedgerOutcomes
  import opened System
  import opened SystemInvariants
  import Batches
  import Keyset

  ghost predicate Possible(s: Sys, e: Event) {
    Apply(s, e).Some?
  }

  // ---------------------------------------------------------------- starting

  /** The task a purge would work on: the one named, if it may be purged again, or else the open one. */
  ghost predicate PurgeTarget(db: Db, id: TaskId, t: TaskId) {
    && t in db.tasks && !db.tasks[t].done
    && ((id == t != 0 && db.tasks[t].purged) || (OpenTasks(db) == {t} && (id == 0 || id == t)))
  }

  lemma TargetIsOne(db: Db, id: TaskId, t: TaskId)
    requires Milestones(db) && NoHold(db) && PurgeTarget(db, id, t)
    ensures ResolvePurge(db, id) == Ok(t)
  {
    ResolvePurgeExact(db, id, t);
  }

  lemma PurgeStarts(s: Sys, id: TaskId)
    ensures Possible(s, Tasks(StartPurge(id))) <==>
              System.Ready(s) && ResolvePurge(s.db, id).Ok? && BeginPurge(s.db, ResolvePurge(s.db, id).value).Ok?
    ensures Possible(s, Tasks(StartPurge(id))) ==>
              var t := ResolvePurge(s.db, id).value;
              Apply(s, Tasks(StartPurge(id)))
              == Some(Sys(BeginPurge(s.db, t).value, Purging(t, false, map[]), s.store))
  {
  }

  lemma TargetExists(db: Db, id: TaskId)
    requires Milestones(db)
    ensures ResolvePurge(db, id).Ok? <==> NoHold(db) && exists u :: PurgeTarget(db, id, u)
  {
    if ResolvePurge(db, id).Ok? {
      var u := ResolvePurge(db, id).value;
      ResolvePurgeExact(db, id, u);
      assert PurgeTarget(db, id, u);
    }
    if NoHold(db) {
      forall u | PurgeTarget(db, id, u) ensures ResolvePurge(db, id).Ok? {
        TargetIsOne(db, id, u);
      }
    }
  }

  lemma TargetCanBegin(db: Db, id: TaskId)
    requires Inv(db) && ResolvePurge(db, id).Ok?
    ensures BeginPurge(db, ResolvePurge(db, id).value).Ok?
  {
    var t := ResolvePurge(db, id).value;
    ResolvePurgeExact(db, id, t);
    BeginPurgeExact(db, t);
  }

  /** A deletion pass can start exactly if nothing is held and there is a task for it; it then works on that. */
  lemma StartPurgeExact(s: Sys, id: TaskId)
    requires Good(s)
    ensures Possible(s, Tasks(StartPurge(id))) <==>
              System.Ready(s) && NoHold(s.db) && exists t :: PurgeTarget(s.db, id, t)
    ensures Possible(s, Tasks(StartPurge(id))) ==>
              var next := Apply(s, Tasks(StartPurge(id))).value;
              && next.session.Purging? && next.session == Purging(next.session.task, false, map[])
              && PurgeTarget(s.db, id, next.session.task)
              && next.store == s.store && Ok(next.db) == BeginPurge(s.db, next.session.task)
  {
    PurgeStarts(s, id);
    TargetExists(s.db, id);
    if ResolvePurge(s.db, id).Ok? {
      TargetCanBegin(s.db, id);
      ResolvePurgeExact(s.db, id, ResolvePurge(s.db, id).value);
    }
  }

  /** The task a verification would work on: the one named, or the oldest one awaiting it. */
  ghost predicate VerifyTarget(db: Db, id: TaskId, t: TaskId) {
    if id != 0 then id == t && t in db.tasks else Least(AwaitingVerify(db), t)
  }

  lemma VerifyTargetIsOne(db: Db, id: TaskId, t: TaskId)
    ensures ResolveVerify(db, id) == Ok(t) <==> VerifyTarget(db, id, t)
  {
    ResolveVerifyExact(db, id, t);
    assert AwaitingVerify(db) == set u | u in db.tasks && !db.tasks[u].done && db.tasks[u].purged;
  }

  lemma VerifyBegins(s: Sys, id: TaskId, restart: bool, t: TaskId)
    requires System.Ready(s) && ResolveVerify(s.db, id) == Ok(t)
    ensures var begun := BeginVerify(s.db, t, restart); var next := Apply(s, Tasks(StartVerify(id, restart)));
            && (next.Some? <==> begun.Ok?)
            && (next.Some? ==> t in begun.value.tasks && next == Some(StartedVerify(s, t, begun.value)))
  {
  }

  lemma StartedFacts(s: Sys, t: TaskId, begun: Db)
    requires t in begun.tasks
    ensures var next := StartedVerify(s, t, begun);
            && next.store == s.store
            && (if begun.tasks[t].done then next.session == Idle && next.db == s.db
                else next.session.Verifying? && next.session.task == t && next.session.looking == NoObject
                     && next.db == begun)
  {
  }

  /**
   A verification can start exactly on a task that is not held and whose active members are all
   processed; one that is finished already is left alone unless it is to be checked afresh.
   */
  lemma StartVerifyExact(s: Sys, id: TaskId, restart: bool, t: TaskId)
    requires Good(s) && System.Ready(s) && VerifyTarget(s.db, id, t)
    ensures t in s.db.tasks
    ensures Possible(s, Tasks(StartVerify(id, restart))) <==>
              !Held(s.db.tasks[t]) && ((s.db.tasks[t].done && !restart) || AllProcessed(s.db, t))
    ensures Possible(s, Tasks(StartVerify(id, restart))) ==>
              var next := Apply(s, Tasks(StartVerify(id, restart))).value;
              next.store == s.store
              && (if s.db.tasks[t].done && !restart then next.session == Idle && next.db == s.db
                  else next.session.Verifying? && next.session.task == t && next.session.looking == NoObject)
  {
    VerifyTargetIsOne(s.db, id, t);
    BeginVerifyExact(s.db, t, restart);
    VerifyBegins(s, id, restart, t);
    if BeginVerify(s.db, t, restart).Ok? {
      BeginVerifyMeans(s.db, t, restart, 0);
      StartedFacts(s, t, BeginVerify(s.db, t, restart).value);
    }
  }

  lemma CreateHappens(s: Sys, target: nat, max: int, retry: bool, id: TaskId)
    ensures var made := Create(s.db, target, max, retry, id);
            var next := Apply(s, Tasks(CreateTask(target, max, retry, id)));
            && (next.Some? <==> System.Ready(s) && NewId(s.db, id) && made.Ok?)
            && (next.Some? ==> next == Some(Sys(if made.value.Fresh? then made.value.db else s.db, Idle, s.store)))
  {
  }

  lemma CreateIsPossible(db: Db, target: nat, max: int, retry: bool, id: TaskId)
    requires Inv(db) && Sealed(db) && 0 < target <= TWO_63 && 0 < max <= 100000
    ensures var made := Create(db, target, max, retry, id);
            && (made.Ok? <==> NoHold(db) && (OpenTasks(db) != {} || Pool(db, retry) != {}))
            && (made.Ok? ==> (made.value.Fresh? <==> OpenTasks(db) == {}))
  {
    CreateGuards(db, target, max, retry, id);
    if NoHold(db) && OpenTasks(db) == {} {
      Batches.CreateEndsExactly(db, target, max, retry, id);
    }
  }

  lemma FreshIsThere(db: Db, target: nat, max: int, retry: bool, id: TaskId)
    requires Inv(db) && Create(db, target, max, retry, id).Ok? && Create(db, target, max, retry, id).value.Fresh?
    ensures id in Create(db, target, max, retry, id).value.db.tasks
  {
    CreateFacts(db, target, max, retry, id);
  }

  /** A batch is allocated, or the open one is named, exactly under these conditions. */
  lemma CreateTaskExact(s: Sys, target: nat, max: int, retry: bool, id: TaskId)
    requires Good(s) && 0 < target <= TWO_63 && 0 < max <= 100000
    ensures Possible(s, Tasks(CreateTask(target, max, retry, id))) <==>
              System.Ready(s) && NewId(s.db, id) && NoHold(s.db) && (OpenTasks(s.db) != {} || Pool(s.db, retry) != {})
    ensures Possible(s, Tasks(CreateTask(target, max, retry, id))) ==>
              var next := Apply(s, Tasks(CreateTask(target, max, retry, id))).value;
              if OpenTasks(s.db) == {} then id in next.db.tasks else next.db == s.db
  {
    CreateHappens(s, target, max, retry, id);
    if Sealed(s.db) {
      CreateIsPossible(s.db, target, max, retry, id);
      if Create(s.db, target, max, retry, id).Ok? && Create(s.db, target, max, retry, id).value.Fresh? {
        FreshIsThere(s.db, target, max, retry, id);
      }
    }
  }

  // ---------------------------------------------------------------- holding

  /** A command that stops before it deletes anything latches the task it was to work on. */
  lemma HoldTaskLatches(s: Sys, id: TaskId, reason: string, t: TaskId)
    requires Good(s) && System.Ready(s) && NoHold(s.db) && PurgeTarget(s.db, id, t) && reason != ""
    ensures var next := Apply(s, Tasks(HoldTask(id, reason)));
            && next.Some? && next.value.session == Idle && next.value.store == s.store
            && t in next.value.db.tasks && Held(next.value.db.tasks[t]) && next.value.db.tasks[t].holdOid == None
  {
    TargetIsOne(s.db, id, t);
    HoldExact(s.db, t, None, reason);
  }

  /** A violation during a pass latches its task under the object; it can do so once. */
  lemma HoldOidLatches(s: Sys, o: Oid, reason: string)
    requires Good(s) && s.session.Purging?
    ensures Possible(s, Purger(HoldOid(o, reason))) <==> !s.session.halted && o in s.session.work && reason != ""
    ensures Possible(s, Purger(HoldOid(o, reason))) ==>
              var next := Apply(s, Purger(HoldOid(o, reason))).value; var t := s.session.task;
              && next.session == s.session.(halted := true)
              && t in next.db.tasks && Held(next.db.tasks[t]) && next.db.tasks[t].holdOid == Some(o)
  {
    HoldExact(s.db, s.session.task, Some(o), reason);
  }

  // ---------------------------------------------------------------- working and ending

  /** A pass takes up an object exactly if it is due, is not being worked on, is not object 0, and nothing halted. */
  lemma AdmitExact(s: Sys, o: Oid)
    requires Good(s) && s.session.Purging?
    ensures Possible(s, Purger(Admit(o))) <==>
              && !s.session.halted && o !in s.session.work && 0 < o
              && Active(s.db, s.session.task, o)
              && (!Processed(s.db, o) || s.db.members[(s.session.task, o)].check == Residue)
  {
    assert Active(s.db, s.session.task, o) ==> (s.session.task, o) in s.db.members;
  }

  /** What was admitted can be recorded, as done or as failed, at any time. */
  lemma ResultsAreTaken(s: Sys, o: Oid)
    requires Good(s) && s.session.Purging?
    ensures Possible(s, Purger(Finish(o))) <==> o in s.session.work
    ensures Possible(s, Purger(GiveUp(o))) <==> o in s.session.work
    ensures Possible(s, Purger(Finish(o))) ==>
              Processed(Apply(s, Purger(Finish(o))).value.db, o)
              && Apply(s, Purger(Finish(o))).value.session == s.session.(work := s.session.work - {o})
    ensures Possible(s, Purger(GiveUp(o))) ==>
              !Processed(Apply(s, Purger(GiveUp(o))).value.db, o)
              && Apply(s, Purger(GiveUp(o))).value.session == s.session.(work := s.session.work - {o})
  {
  }

  lemma PurgeFinishes(s: Sys)
    requires s.session.Purging? && s.session.task in s.db.tasks
    ensures var done := CompletePurge(s.db, s.session.task, s.db.tasks[s.session.task].objectCount);
            && (Possible(s, Purger(FinishPurge)) <==> !s.session.halted && s.session.work == map[] && done.Ok?)
            && (Possible(s, Purger(FinishPurge)) ==>
                  Apply(s, Purger(FinishPurge)) == Some(Sys(done.value, Idle, s.store)))
  {
  }

  /** A pass ends with its milestone exactly if it was not halted, nothing is in hand and nothing is left to do. */
  lemma FinishPurgeExact(s: Sys)
    requires Good(s) && s.session.Purging?
    ensures Possible(s, Purger(FinishPurge)) <==>
              !s.session.halted && s.session.work == map[] && AllProcessed(s.db, s.session.task)
    ensures Possible(s, Purger(FinishPurge)) ==>
              var next := Apply(s, Purger(FinishPurge)).value;
              next.db.tasks[s.session.task].purged && next.session == Idle && next.store == s.store
  {
    PurgeFinishes(s);
    CompletePurgeExact(s.db, s.session.task);
  }

  /** A deferral ends with the milestone exactly if it leaves nothing to delete in the task. */
  lemma FinishDeferExact(s: Sys)
    requires Good(s) && s.session.Deferring?
    ensures var row := s.db.tasks[s.session.task];
            Possible(s, Tasks(FinishDefer)) <==> AllProcessed(s.db, s.session.task) && !row.done && !Held(row)
  {
    CompletePurgeExact(s.db, s.session.task);
  }

  lemma VerifyFinishes(s: Sys)
    requires s.session.Verifying?
    ensures var done := CompleteVerify(s.db, s.session.task, s.session.generation, s.session.count);
            && (Possible(s, Verifier(FinishVerify)) <==> s.session.looking == NoObject && done.Ok?)
            && (Possible(s, Verifier(FinishVerify)) ==>
                  Apply(s, Verifier(FinishVerify)) == Some(Sys(done.value, Idle, s.store)))
  {
  }

  /** A verification ends with its task finished exactly if every active member has passed. */
  lemma FinishVerifyExact(s: Sys)
    requires Good(s) && s.session.Verifying?
    ensures Possible(s, Verifier(FinishVerify)) <==>
              s.session.looking == NoObject && AllPassed(s.db, s.session.task)
    ensures Possible(s, Verifier(FinishVerify)) ==>
              var next := Apply(s, Verifier(FinishVerify)).value;
              next.db.tasks[s.session.task].done && next.session == Idle && next.store == s.store
  {
    VerifyFinishes(s);
    VerifiedMeans(s.db, s.session.task, s.session.generation, s.session.count);
    TaskTotal(s.db, s.session.task);
  }

  /** A check begins with an object that has not passed in this generation, and with a true answer. */
  lemma LookExact(s: Sys, o: Oid, reply: Reply)
    requires Good(s) && s.session.Verifying? && s.session.looking == NoObject
    ensures Possible(s, Verifier(Look(o, reply))) <==>
              && 0 < o && Active(s.db, s.session.task, o) && !Passed(s.db, (s.session.task, o))
              && (reply == System.Empty ==> Under(s.store, o, 0) == {})
              && (reply == NonEmpty ==> Under(s.store, o, 0) != {})
  {
    assert Active(s.db, s.session.task, o) ==> (s.session.task, o) in s.db.members;
  }
}
