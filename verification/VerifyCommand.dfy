/**
 The verify command (runVerify): guard, select the task, check its manifest, begin, run, complete;
 and what a completed run means for the last transaction.
 */
module VerifyCommand {
  import opened Wrappers
  import opened Ledger
  import opened LedgerInvariants
  import opened LedgerTheorems
  import opened Storage
  import opened ProgressDb
  import opened VerifyRun
  import System
  import SystemInvariants
  import Keyset
  import opened Interrupts

  // ---------------------------------------------------------------- what a run records

  lemma {:induction false} NotedHere(db: Db, t: TaskId, generation: nat, asked: seq<Examined>, o: Oid,
                                     store: map<string, nat>, retries: nat)
    requires AllFaithful(asked, store, retries) && Active(db, t, o) && o in OidsAsked(asked)
    ensures var row := Noted(db, t, generation, asked).members;
            (t, o) in row && row[(t, o)].generation == generation && Honest(store, o, row[(t, o)].check)
  {
    var n := |asked| - 1;
    assert asked == asked[..n] + [asked[n]];
    SentSnoc(asked[..n], asked[n]);
    NotedElsewhere(db, t, generation, asked[..n], (t, o));
    VerdictIsHonest(store, asked[n], retries);
    if asked[n].oid != o {
      NotedHere(db, t, generation, asked[..n], o, store, retries);
    }
  }

  /** The rows of the checked members carry an honest result of this generation; all others are as before. */
  ghost predicate Recorded(before: Db, after: Db, t: TaskId, generation: nat, checked: set<Oid>,
                           store: map<string, nat>) {
    && after == before.(members := after.members) && after.members.Keys == before.members.Keys
    && forall k :: k in before.members ==>
         && after.members[k].deferred == before.members[k].deferred
         && if k.0 == t && k.1 in checked
            then after.members[k].generation == generation && Honest(store, k.1, after.members[k].check)
            else after.members[k] == before.members[k]
  }

  lemma NotedIsRecorded(db: Db, t: TaskId, generation: nat, asked: seq<Examined>, store: map<string, nat>, retries: nat)
    requires AllFaithful(asked, store, retries) && forall o :: o in OidsAsked(asked) ==> Active(db, t, o)
    ensures Recorded(db, Noted(db, t, generation, asked), t, generation, Keyset.Elements(OidsAsked(asked)), store)
  {
    NotedKeeps(db, t, generation, asked);
    forall k | k in db.members
      ensures var now := Noted(db, t, generation, asked).members;
              && k in now && now[k].deferred == db.members[k].deferred
              && if k.0 == t && k.1 in OidsAsked(asked)
                 then now[k].generation == generation && Honest(store, k.1, now[k].check)
                 else now[k] == db.members[k]
    {
      NotedElsewhere(db, t, generation, asked, k);
      if k.0 == t && k.1 in OidsAsked(asked) {
        assert k == (t, k.1);
        NotedHere(db, t, generation, asked, k.1, store, retries);
      }
    }
  }

  /** A run without an error: every pending member has been examined. */
  lemma WholeRun(db: Db, t: TaskId, generation: nat, asked: seq<Examined>, store: map<string, nat>, retries: nat)
    requires AllFaithful(asked, store, retries)
    requires OidsAsked(asked) == Keyset.Sorted(Keyset.Above(UnverifiedOids(db, t, generation), 0))
    ensures Recorded(db, Noted(db, t, generation, asked), t, generation,
                     Keyset.Above(UnverifiedOids(db, t, generation), 0), store)
  {
    var q := OidsAsked(asked);
    UnverifiedAre(db, t, generation);
    assert forall o :: o in q ==> o in Keyset.Elements(q);
    NotedIsRecorded(db, t, generation, asked, store, retries);
  }

  // ---------------------------------------------------------------- the last transaction

  lemma StillProcessed(before: Db, after: Db, t: TaskId, generation: nat, checked: set<Oid>, store: map<string, nat>)
    requires Recorded(before, after, t, generation, checked, store)
    ensures AllProcessed(after, t) <==> AllProcessed(before, t)
  {
  }

  /** Every member that was pending has passed, and object 0, which no cursor reaches, was not among them. */
  ghost predicate PendingPassed(before: Db, after: Db, t: TaskId, g: nat) {
    forall o :: o in UnverifiedOids(before, t, g) ==>
                  0 < o && (t, o) in after.members && after.members[(t, o)].check == Pass
  }

  lemma PassedAfter(before: Db, after: Db, t: TaskId, generation: nat, store: map<string, nat>)
    requires t in before.tasks && before.tasks[t].generation == generation
    requires Recorded(before, after, t, generation, Keyset.Above(UnverifiedOids(before, t, generation), 0), store)
    ensures AllPassed(after, t) <==> PendingPassed(before, after, t, generation)
  {
    var pending := UnverifiedOids(before, t, generation);
    UnverifiedAre(before, t, generation);
    if AllPassed(after, t) {
      forall o | o in pending ensures 0 < o && (t, o) in after.members && after.members[(t, o)].check == Pass {
        assert (t, o) in after.members && Passed(after, (t, o));
      }
    }
    if PendingPassed(before, after, t, generation) {
      forall k | k in after.members && k.0 == t && !after.members[k].deferred ensures Passed(after, k) {
        assert k == (t, k.1);
        assert k.1 in pending <==> Unverified(before, t, generation, k.1);
      }
    }
  }

  lemma ManifestStays(before: Db, after: Db, t: TaskId, generation: nat, checked: set<Oid>, store: map<string, nat>)
    requires Manifests(before) && t in before.tasks && Recorded(before, after, t, generation, checked, store)
    ensures Manifest(after, t)
  {
    ManifestsKept(before, after);
  }

  /**
   After a completed run on a task that `BeginVerify` accepted, the final transaction succeeds
   exactly when every checked member passed and object 0, which the cursor never reaches, was
   not pending.
   */
  lemma RunThenComplete(before: Db, after: Db, t: TaskId, store: map<string, nat>)
    requires Inv(before) && t in before.tasks && AllProcessed(before, t)
    requires !before.tasks[t].done && !Held(before.tasks[t]) && before.tasks[t].phase == Verify
    requires var g := before.tasks[t].generation;
             Recorded(before, after, t, g, Keyset.Above(UnverifiedOids(before, t, g), 0), store)
    ensures var s := before.tasks[t];
            Ledger.CompleteVerify(after, t, s.generation, s.objectCount).Ok? <==>
              PendingPassed(before, after, t, s.generation)
  {
    var s := before.tasks[t];
    ManifestStays(before, after, t, s.generation, Keyset.Above(UnverifiedOids(before, t, s.generation), 0), store);
    StillProcessed(before, after, t, s.generation, Keyset.Above(UnverifiedOids(before, t, s.generation), 0), store);
    PassedAfter(before, after, t, s.generation, store);
    CompleteVerifyExact(after, t);
  }

  // ---------------------------------------------------------------- the promise

  /** The members the command has to check: all active ones after a restart, else those without a PASS. */
  ghost predicate Due(db: Db, t: TaskId, restart: bool, o: Oid) {
    && t in db.tasks && Active(db, t, o)
    && (restart || (!db.tasks[t].done && Unverified(db, t, db.tasks[t].generation, o)))
  }

  /** The promise of a successful verification: nothing is stored of any member that was due. */
  ghost predicate Promise(db: Db, t: TaskId, restart: bool, store: map<string, nat>) {
    forall o :: Due(db, t, restart, o) ==> System.Residues(store, o) == {}
  }

  lemma DueIsPending(db: Db, t: TaskId, restart: bool, begun: Db, o: Oid)
    requires Generations(db) && Ledger.BeginVerify(db, t, restart) == Ok(begun)
    requires t in begun.tasks && !begun.tasks[t].done
    ensures Due(db, t, restart, o) <==> o in UnverifiedOids(begun, t, begun.tasks[t].generation)
  {
    UnverifiedAre(begun, t, begun.tasks[t].generation);
    assert begun.members == db.members;
    assert Active(db, t, o) ==> db.members[(t, o)].generation <= db.tasks[t].generation;
  }

  lemma BegunFacts(db: Db, t: TaskId, restart: bool, begun: Db)
    requires Inv(db) && Ledger.BeginVerify(db, t, restart) == Ok(begun) && t in begun.tasks && !begun.tasks[t].done
    ensures Inv(begun) && AllProcessed(begun, t) && !Held(begun.tasks[t]) && begun.tasks[t].phase == Verify
  {
    SystemInvariants.StartVerifySession(db, t, restart);
    BeginVerifyKeepsInv(db, t, restart);
  }

  lemma PassIsEmpty(begun: Db, after: Db, t: TaskId, g: nat, store: map<string, nat>, o: Oid)
    requires Recorded(begun, after, t, g, Keyset.Above(UnverifiedOids(begun, t, g), 0), store)
    requires PendingPassed(begun, after, t, g) && o in UnverifiedOids(begun, t, g)
    ensures System.Residues(store, o) == {}
  {
    assert (t, o) in begun.members;
  }

  lemma PendingEmptied(db: Db, begun: Db, after: Db, t: TaskId, restart: bool, store: map<string, nat>)
    requires Generations(db) && Ledger.BeginVerify(db, t, restart) == Ok(begun)
    requires t in begun.tasks && !begun.tasks[t].done
    requires var g := begun.tasks[t].generation;
             && Recorded(begun, after, t, g, Keyset.Above(UnverifiedOids(begun, t, g), 0), store)
             && PendingPassed(begun, after, t, g)
    ensures Promise(db, t, restart, store)
  {
    forall o | Due(db, t, restart, o) ensures System.Residues(store, o) == {} {
      DueIsPending(db, t, restart, begun, o);
      PassIsEmpty(begun, after, t, begun.tasks[t].generation, store, o);
    }
  }

  // ---------------------------------------------------------------- what a whole run decides

  /** Every examination found both prefixes empty. */
  ghost predicate AllSeenEmpty(asked: seq<Examined>) {
    forall i :: 0 <= i < |asked| ==> asked[i].replies == [System.Empty, System.Empty]
  }

  /** No object is examined twice, so what its examination showed is what its row says. */
  lemma {:induction false} NotedCheck(db: Db, t: TaskId, g: nat, asked: seq<Examined>, i: nat)
    requires Keyset.Ascending(OidsAsked(asked)) && i < |asked| && Active(db, t, asked[i].oid)
    ensures var row := Noted(db, t, g, asked).members;
            (t, asked[i].oid) in row && row[(t, asked[i].oid)].check == System.Verdict(asked[i].replies)
  {
    var n := |asked| - 1;
    var o := asked[i].oid;
    assert asked == asked[..n] + [asked[n]];
    SentSnoc(asked[..n], asked[n]);
    NotedElsewhere(db, t, g, asked[..n], (t, o));
    if i < n {
      assert OidsAsked(asked)[i] < OidsAsked(asked)[n];
      NotedCheck(db, t, g, asked[..n], i);
    }
  }

  lemma Examinations(asked: seq<Examined>, pending: set<Oid>, o: Oid) returns (i: nat)
    requires OidsAsked(asked) == Keyset.Sorted(Keyset.Above(pending, 0)) && o in pending && 0 < o
    ensures i < |asked| && asked[i].oid == o
  {
    assert o in Keyset.Elements(OidsAsked(asked));
    i :| 0 <= i < |asked| && OidsAsked(asked)[i] == o;
  }

  lemma ExaminedIsPending(asked: seq<Examined>, pending: set<Oid>, i: nat)
    requires OidsAsked(asked) == Keyset.Sorted(Keyset.Above(pending, 0)) && i < |asked|
    ensures asked[i].oid in pending && 0 < asked[i].oid
  {
    assert OidsAsked(asked)[i] in Keyset.Elements(OidsAsked(asked));
  }

  /** The row of an examined member shows PASS exactly if its examination saw nothing. */
  lemma RowIsExamination(db: Db, t: TaskId, g: nat, asked: seq<Examined>, store: map<string, nat>, retries: nat, i: nat)
    requires AllFaithful(asked, store, retries) && i < |asked|
    requires OidsAsked(asked) == Keyset.Sorted(Keyset.Above(UnverifiedOids(db, t, g), 0))
    ensures var row := Noted(db, t, g, asked).members; var o := asked[i].oid;
            && o in UnverifiedOids(db, t, g) && 0 < o && (t, o) in row
            && (row[(t, o)].check == Pass <==> asked[i].replies == [System.Empty, System.Empty])
  {
    UnverifiedAre(db, t, g);
    ExaminedIsPending(asked, UnverifiedOids(db, t, g), i);
    NotedCheck(db, t, g, asked, i);
    assert Faithful(asked[i], store, retries);
    RepliesDecide(asked[i].replies);
  }

  lemma PassedWasSeenEmpty(db: Db, t: TaskId, g: nat, asked: seq<Examined>, store: map<string, nat>, retries: nat)
    requires AllFaithful(asked, store, retries) && PendingPassed(db, Noted(db, t, g, asked), t, g)
    requires OidsAsked(asked) == Keyset.Sorted(Keyset.Above(UnverifiedOids(db, t, g), 0))
    ensures AllSeenEmpty(asked)
  {
    forall i | 0 <= i < |asked| ensures asked[i].replies == [System.Empty, System.Empty] {
      RowIsExamination(db, t, g, asked, store, retries, i);
    }
  }

  lemma SeenEmptyPasses(db: Db, t: TaskId, g: nat, asked: seq<Examined>, store: map<string, nat>, retries: nat)
    requires AllFaithful(asked, store, retries) && AllSeenEmpty(asked)
    requires OidsAsked(asked) == Keyset.Sorted(Keyset.Above(UnverifiedOids(db, t, g), 0))
    ensures var row := Noted(db, t, g, asked).members;
            forall i :: 0 <= i < |asked| ==> (t, asked[i].oid) in row && row[(t, asked[i].oid)].check == Pass
  {
    var row := Noted(db, t, g, asked).members;
    forall i | 0 <= i < |asked| ensures (t, asked[i].oid) in row && row[(t, asked[i].oid)].check == Pass {
      RowIsExamination(db, t, g, asked, store, retries, i);
    }
  }

  /** What holds of every examined member holds of every pending one but object 0. */
  lemma EveryPending(asked: seq<Examined>, pending: set<Oid>, row: map<RowKey, Member>, t: TaskId)
    requires OidsAsked(asked) == Keyset.Sorted(Keyset.Above(pending, 0)) && 0 !in pending
    requires forall i :: 0 <= i < |asked| ==> (t, asked[i].oid) in row && row[(t, asked[i].oid)].check == Pass
    ensures forall o :: o in pending ==> 0 < o && (t, o) in row && row[(t, o)].check == Pass
  {
    forall o | o in pending ensures 0 < o && (t, o) in row && row[(t, o)].check == Pass {
      var i := Examinations(asked, pending, o);
    }
  }

  /** All pending members have passed exactly if all examinations saw nothing and object 0 is not pending. */
  lemma PassedIsSeenEmpty(db: Db, t: TaskId, g: nat, asked: seq<Examined>, store: map<string, nat>, retries: nat)
    requires AllFaithful(asked, store, retries)
    requires OidsAsked(asked) == Keyset.Sorted(Keyset.Above(UnverifiedOids(db, t, g), 0))
    ensures PendingPassed(db, Noted(db, t, g, asked), t, g) <==>
              0 !in UnverifiedOids(db, t, g) && AllSeenEmpty(asked)
  {
    if PendingPassed(db, Noted(db, t, g, asked), t, g) {
      PassedWasSeenEmpty(db, t, g, asked, store, retries);
    }
    if 0 !in UnverifiedOids(db, t, g) && AllSeenEmpty(asked) {
      SeenEmptyPasses(db, t, g, asked, store, retries);
      EveryPending(asked, UnverifiedOids(db, t, g), Noted(db, t, g, asked).members, t);
    }
  }

  /** `begun` is what BeginVerify made of the tables; proofs see into it where they mention `BeginVerify`. */
  ghost predicate Begun(db: Db, t: TaskId, restart: bool, begun: Db) {
    forall d {:trigger Ledger.BeginVerify(d, t, restart)} :: d == db ==> Ledger.BeginVerify(d, t, restart) == Ok(begun)
  }

  /** The last transaction after a whole run, and whether it accepts. */
  lemma WholeRunDecides(db: Db, begun: Db, t: TaskId, restart: bool, asked: seq<Examined>, store: map<string, nat>,
                        retries: nat)
    requires Sound(db) && Begun(db, t, restart, begun) && t in begun.tasks && !begun.tasks[t].done
    requires AllFaithful(asked, store, retries)
    requires OidsAsked(asked)
             == Keyset.Sorted(Keyset.Above(UnverifiedOids(begun, t, begun.tasks[t].generation), 0))
    ensures var s := begun.tasks[t]; var after := Noted(begun, t, s.generation, asked);
            && (Ledger.CompleteVerify(after, t, s.generation, s.objectCount).Ok? <==>
                  !Due(db, t, restart, 0) && AllSeenEmpty(asked))
            && (Ledger.CompleteVerify(after, t, s.generation, s.objectCount).Ok? ==> Promise(db, t, restart, store))
  {
    assert Inv(db) && Ledger.BeginVerify(db, t, restart) == Ok(begun);
    var s := begun.tasks[t];
    var after := Noted(begun, t, s.generation, asked);
    WholeRun(begun, t, s.generation, asked, store, retries);
    BegunFacts(db, t, restart, begun);
    RunThenComplete(begun, after, t, store);
    PassedIsSeenEmpty(begun, t, s.generation, asked, store, retries);
    DueIsPending(db, t, restart, begun, 0);
    if PendingPassed(begun, after, t, s.generation) {
      PendingEmptied(db, begun, after, t, restart, store);
    }
  }

  /** The examinations of a whole run are those of the members that were due, object 0 excepted. */
  lemma ExaminedAreDue(db: Db, begun: Db, t: TaskId, restart: bool, asked: seq<Examined>)
    requires Sound(db) && Begun(db, t, restart, begun) && t in begun.tasks && !begun.tasks[t].done
    requires OidsAsked(asked)
             == Keyset.Sorted(Keyset.Above(UnverifiedOids(begun, t, begun.tasks[t].generation), 0))
    ensures forall o :: o in OidsAsked(asked) <==> 0 < o && Due(db, t, restart, o)
  {
    assert Inv(db) && Ledger.BeginVerify(db, t, restart) == Ok(begun);
    var pending := UnverifiedOids(begun, t, begun.tasks[t].generation);
    forall o ensures o in OidsAsked(asked) <==> 0 < o && Due(db, t, restart, o) {
      DueIsPending(db, t, restart, begun, o);
      assert o in OidsAsked(asked) <==> o in Keyset.Elements(OidsAsked(asked));
    }
  }

  // ---------------------------------------------------------------- the command

  datatype VerifyError = Refused(error: LedgerError) | Interrupted

  /** openBound after its recovery: the database belongs to this run and its list is sealed. */
  function Guard(db: Db, binding: Binding): Option<LedgerError> {
    if db.meta.None? then Some(UnboundData)
    else if db.meta.value.binding != binding then Some(WrongTask)
    else if !Sealed(db) then Some(ScanIncomplete) else None
  }

  /** No hold has been put on a task, taken off, or changed. */
  ghost predicate SameHolds(tasks: map<TaskId, Task>, later: map<TaskId, Task>) {
    later.Keys == tasks.Keys
    && forall u :: u in tasks ==> later[u].holdReason == tasks[u].holdReason && later[u].holdOid == tasks[u].holdOid
  }

  /**
   How a verification of task `t` ends once it has begun: a run that is not interrupted examines
   every member that was due, and succeeds exactly if all of them were seen empty.
   */
  ghost predicate Decided(db: Db, t: TaskId, restart: bool, asked: seq<Examined>, r: Result<TaskId, VerifyError>) {
    && (r == Ok(t) || r == Err(Interrupted) || r == Err(Refused(VerificationIncomplete)))
    && (r != Err(Interrupted) ==>
          && (forall o :: o in OidsAsked(asked) <==> 0 < o && Due(db, t, restart, o))
          && (r == Ok(t) <==> !Due(db, t, restart, 0) && AllSeenEmpty(asked)))
  }

  lemma CompleteVerifyHolds(db: Db, t: TaskId, generation: nat, count: nat)
    requires t in db.tasks && db.tasks[t].phase == Verify && !Held(db.tasks[t]) && db.tasks[t].generation == generation
    ensures match Ledger.CompleteVerify(db, t, generation, count)
            case Ok(after) => SameHolds(db.tasks, after.tasks) && t in after.tasks && after.tasks[t].done
            case Err(e) => e == VerificationIncomplete
  {
  }

  /**
   What a verification leaves in the tables: of what was begun the examinations that were
   recorded, all of them unless it was interrupted, and the task finished if it succeeded.
   */
  ghost predicate Left(begun: Db, t: TaskId, asked: seq<Examined>, recorded: nat, r: Result<TaskId, VerifyError>,
                       now: Db) {
    && t in begun.tasks && recorded <= |asked| <= recorded + 1 && (r != Err(Interrupted) ==> recorded == |asked|)
    && var noted := Noted(begun, t, begun.tasks[t].generation, asked[..recorded]);
       now == if r.Ok? then noted.(tasks := begun.tasks[t := begun.tasks[t].(done := true)]) else noted
  }

  /** CompleteVerify after a whole run. */
  method Complete(p: Database, t: TaskId, restart: bool, ghost db: Db, ghost begun: Db,
                  ghost asked: seq<Examined>, ghost store: map<string, nat>, ghost retries: nat)
    returns (r: Result<TaskId, VerifyError>)
    requires p.Valid() && t in p.tasks && t in begun.tasks && p.tasks == begun.tasks && !begun.tasks[t].done
    requires p.tasks[t].phase == Verify && !Held(p.tasks[t])
    requires Sound(db) && Begun(db, t, restart, begun) && AllFaithful(asked, store, retries)
    requires var g := begun.tasks[t].generation;
             && OidsAsked(asked) == Keyset.Sorted(Keyset.Above(UnverifiedOids(begun, t, g), 0))
             && p.View() == Noted(begun, t, g, asked)
    modifies p`tasks
    ensures p.Valid() && SameHolds(old(p.tasks), p.tasks)
    ensures r != Err(Interrupted) && Decided(db, t, restart, asked, r)
    ensures p.View() == if r.Ok? then old(p.View()).(tasks := begun.tasks[t := begun.tasks[t].(done := true)])
                        else old(p.View())
    ensures r.Ok? ==> t in p.tasks && p.tasks[t].done && Promise(db, t, restart, store)
  {
    var s := p.tasks[t];
    WholeRunDecides(db, begun, t, restart, asked, store, retries);
    ExaminedAreDue(db, begun, t, restart, asked);
    CompleteVerifyHolds(p.View(), t, s.generation, s.objectCount);
    var refused := p.CompleteVerify(t, s.generation, s.objectCount);
    return if refused == None then Ok(t) else Err(Refused(refused.value));
  }

  /** The whole of the run, or as much as it is let. */
  method RunAll(p: Database, b: Bucket, ctx: Context, t: TaskId, retries: nat)
    returns (stopped: bool, ghost asked: seq<Examined>, ghost recorded: nat)
    requires p.Valid() && t in p.tasks && !p.tasks[t].done
    modifies p`members, b`trace, ctx
    ensures p.Valid()
    ensures old(ctx.refusals) <= ctx.refusals && (stopped ==> old(ctx.refusals) < ctx.refusals)
    ensures ctx.refusals == old(ctx.refusals) ==> Thorough(asked, retries)
    ensures AllFaithful(asked, b.contents, retries) && b.trace == old(b.trace) + Sent(asked)
    ensures recorded <= |asked| <= recorded + 1
    ensures p.View() == Noted(old(p.View()), t, p.tasks[t].generation, asked[..recorded])
    ensures var g := p.tasks[t].generation;
            !stopped ==>
              && OidsAsked(asked) == Keyset.Sorted(Keyset.Above(UnverifiedOids(old(p.View()), t, g), 0))
              && recorded == |asked| && p.View() == Noted(old(p.View()), t, g, asked)
  {
    stopped, asked, recorded := Run(p, b, ctx, t, p.tasks[t].generation, retries);
    assert recorded == |asked| ==> asked[..recorded] == asked;
  }

  /** The task is begun and not finished: run, then complete. */
  method RunAndComplete(p: Database, b: Bucket, ctx: Context, t: TaskId, restart: bool, retries: nat, ghost db: Db)
    returns (r: Result<TaskId, VerifyError>, ghost asked: seq<Examined>, ghost recorded: nat)
    requires p.Valid() && t in p.tasks && !p.tasks[t].done && p.tasks[t].phase == Verify && !Held(p.tasks[t])
    requires Sound(db) && Begun(db, t, restart, p.View())
    modifies p`tasks, p`members, b`trace, ctx
    ensures p.Valid() && SameHolds(old(p.tasks), p.tasks)
    ensures old(ctx.refusals) <= ctx.refusals && (r == Err(Interrupted) ==> old(ctx.refusals) < ctx.refusals)
    ensures ctx.refusals == old(ctx.refusals) ==> Thorough(asked, retries)
    ensures AllFaithful(asked, b.contents, retries) && b.trace == old(b.trace) + Sent(asked)
    ensures Decided(db, t, restart, asked, r)
    ensures Left(old(p.View()), t, asked, recorded, r, p.View())
    ensures r.Ok? ==> t in p.tasks && p.tasks[t].done && Promise(db, t, restart, b.contents)
  {
    ghost var begun := p.View();
    var stopped;
    stopped, asked, recorded := RunAll(p, b, ctx, t, retries);
    if stopped {
      return Err(Interrupted), asked, recorded;
    }
    assert asked[..recorded] == asked;
    r := Complete(p, t, restart, db, begun, asked, b.contents, retries);
  }

  lemma RowKeepsHolds(db: Db, t: TaskId, row: Task)
    requires t in db.tasks && row.holdReason == db.tasks[t].holdReason && row.holdOid == db.tasks[t].holdOid
    ensures SameHolds(db.tasks, WithTask(db, t, row).tasks)
  {
  }

  lemma BegunHolds(db: Db, t: TaskId, restart: bool)
    requires Ledger.BeginVerify(db, t, restart).Ok?
    ensures var begun := Ledger.BeginVerify(db, t, restart).value;
            && SameHolds(db.tasks, begun.tasks) && t in begun.tasks && !Held(begun.tasks[t])
            && (!begun.tasks[t].done ==> begun.tasks[t].phase == Verify)
  {
    var begun := Ledger.BeginVerify(db, t, restart).value;
    RowKeepsHolds(db, t, begun.tasks[t]);
  }

  /** A task that is finished when the verification begins is left as it is. */
  ghost predicate AfterBegun(begun: Db, t: TaskId, asked: seq<Examined>, recorded: nat, r: Result<TaskId, VerifyError>,
                             now: Db) {
    && t in begun.tasks
    && if begun.tasks[t].done then now == begun && asked == [] && r == Ok(t)
       else Left(begun, t, asked, recorded, r, now)
  }

  /** From BeginVerify on. */
  method VerifyTask(p: Database, b: Bucket, ctx: Context, t: TaskId, restart: bool, retries: nat)
    returns (r: Result<TaskId, VerifyError>, ghost asked: seq<Examined>, ghost recorded: nat)
    requires p.Valid() && t in p.tasks
    modifies p`tasks, p`members, b`trace, ctx
    ensures p.Valid() && SameHolds(old(p.tasks), p.tasks)
    ensures old(ctx.refusals) <= ctx.refusals && (r == Err(Interrupted) ==> old(ctx.refusals) < ctx.refusals)
    ensures ctx.refusals == old(ctx.refusals) ==> Thorough(asked, retries)
    ensures AllFaithful(asked, b.contents, retries) && b.trace == old(b.trace) + Sent(asked)
    ensures match Ledger.BeginVerify(old(p.View()), t, restart)
            case Err(e) => r == Err(Refused(e)) && e != ManifestChanged && asked == [] && p.View() == old(p.View())
            case Ok(begun) => Decided(old(p.View()), t, restart, asked, r)
                              && AfterBegun(begun, t, asked, recorded, r, p.View())
    ensures r.Ok? ==> r.value == t && t in p.tasks && p.tasks[t].done
                      && Promise(old(p.View()), t, restart, b.contents)
  {
    ghost var db := p.View();
    asked, recorded := [], 0;
    var refused := p.BeginVerify(t, restart);
    if refused.Some? {
      return Err(Refused(refused.value)), [], 0;
    }
    BegunHolds(db, t, restart);
    if p.tasks[t].done {
      NothingDue(db, t, restart, p.View(), b.contents);
      return Ok(t), [], 0;
    }
    r, asked, recorded := RunAndComplete(p, b, ctx, t, restart, retries, db);
  }

  /** A finished task that is not restarted has nothing left to check. */
  lemma NothingDue(db: Db, t: TaskId, restart: bool, begun: Db, store: map<string, nat>)
    requires Ledger.BeginVerify(db, t, restart) == Ok(begun) && t in begun.tasks && begun.tasks[t].done
    ensures Promise(db, t, restart, store) && Decided(db, t, restart, [], Ok(t))
  {
  }

  lemma ManifestHolds(db: Db, t: TaskId)
    requires Sound(db) && t in db.tasks
    ensures ManifestOk(db, t)
  {
    assert Inv(db);
    ManifestAccepted(db, t);
  }

  /** CheckManifest, with holdGlobal if it fails. */
  method CheckManifest(p: Database, t: TaskId) returns (changed: bool)
    requires p.Valid() && t in p.tasks
    modifies p`tasks
    ensures p.Valid() && (changed <==> !ManifestOk(old(p.View()), t))
    ensures p.View() == if changed then Ledger.Hold(old(p.View()), t, None, "manifest changed") else old(p.View())
  {
    changed := !ManifestOk(p.View(), t);
    if changed {
      p.Hold(t, None, "manifest changed");
    }
  }

  /**
   runVerify. Whatever happens, all it sends are listings of members it examines, no hold is put
   on a task, and the manifest check does not fail. It is refused by its guards, by the choice of
   a task, or by BeginVerify, and for no other reason; once begun it succeeds exactly if it is not
   interrupted and everything that was due is seen empty. Then the task is finished and nothing is
   stored of any member that was due: all active ones after a restart, otherwise those that had
   not passed in the present generation.
   */
  method RunVerify(p: Database, b: Bucket, ctx: Context, binding: Binding, id: TaskId, restart: bool, retries: nat)
    returns (r: Result<TaskId, VerifyError>, ghost asked: seq<Examined>, ghost recorded: nat)
    requires p.Valid()
    modifies p`tasks, p`members, b`trace, ctx
    ensures p.Valid()
    ensures old(ctx.refusals) <= ctx.refusals && (r == Err(Interrupted) ==> old(ctx.refusals) < ctx.refusals)
    ensures ctx.refusals == old(ctx.refusals) ==> Thorough(asked, retries)
    ensures AllFaithful(asked, b.contents, retries) && b.trace == old(b.trace) + Sent(asked)
    ensures r != Err(Refused(ManifestChanged)) && SameHolds(old(p.tasks), p.tasks)
    ensures var db := Recover(old(p.View()));
            if Guard(db, binding).Some?
            then r == Err(Refused(Guard(db, binding).value)) && p.View() == db && asked == []
            else match ResolveVerify(db, id)
                 case Err(e) => r == Err(Refused(e)) && p.View() == db && asked == []
                 case Ok(t) =>
                   && (r.Ok? ==> r.value == t && t in p.tasks && p.tasks[t].done && Promise(db, t, restart, b.contents))
                   && (match Ledger.BeginVerify(db, t, restart)
                       case Err(e) => r == Err(Refused(e)) && p.View() == db && asked == []
                       case Ok(begun) => Decided(db, t, restart, asked, r)
                                         && AfterBegun(begun, t, asked, recorded, r, p.View()))
  {
    asked, recorded := [], 0;
    RecoverHolds(p.View());
    p.EnsureSchema();
    ghost var db := p.View();
    var refused := p.CheckBinding(binding);
    if refused.Some? {
      r := Err(Refused(refused.value));
      return;
    }
    if !Sealed(p.View()) {
      r := Err(Refused(ScanIncomplete));
      return;
    }
    var found := ResolveVerify(p.View(), id);
    if found.Err? {
      NoVerifyTarget(p.View(), id);
      r := Err(Refused(found.error));
      return;
    }
    var t := found.value;
    SystemInvariants.ResolvesToTask(p.View(), id);
    ManifestHolds(p.View(), t);
    var changed := CheckManifest(p, t);
    if changed {
      r := Err(Refused(ManifestChanged));
      return;
    }
    r, asked, recorded := VerifyTask(p, b, ctx, t, restart, retries);
  }

  lemma RecoverHolds(db: Db)
    ensures SameHolds(db.tasks, Recover(db).tasks)
  {
  }

  lemma NoVerifyTarget(db: Db, id: TaskId)
    ensures ResolveVerify(db, id).Err? ==> ResolveVerify(db, id).error != ManifestChanged
  {
  }
}
