/**
 What a PASS, a finished task and ALL_DONE are evidence of, over whole histories: checks made
 after the last deletion pass of the task, on a store that then held nothing of the object.
 */
module Evidence {
  import opened Wrappers
  import opened Capacity
  import opened Ledger
  import opened LedgerInvariants
  import opened LedgerTheorems
  import opened System
  import opened SystemInvariants
  import opened Histories
  import PieceKeys

  // ---------------------------------------------------------------- where a PASS comes from

  ghost predicate PassedAt(db: Db, t: TaskId, o: Oid) {
    (t, o) in db.members && Passed(db, (t, o))
  }

  /** The event records PASS for the object after both of its prefixes were found empty. */
  predicate JudgedPass(s: Sys, e: Event, t: TaskId, o: Oid) {
    && e == Verifier(Judge(o)) && s.session.Verifying? && s.session.task == t
    && s.session.looking == Object(o, [Empty, Empty])
  }

  /** The PASS was there before, in the same generation. */
  ghost predicate PassKept(db: Db, later: Db, t: TaskId, o: Oid) {
    && PassedAt(db, t, o) && t in later.tasks
    && later.tasks[t].generation == db.tasks[t].generation
  }

  lemma CreatePass(db: Db, target: nat, max: int, retry: bool, id: TaskId, t: TaskId, o: Oid)
    requires Frozen(db) && NewId(db, id)
    ensures var r := Create(db, target, max, retry, id);
            r.Ok? && r.value.Fresh? && PassedAt(r.value.db, t, o) ==> PassKept(db, r.value.db, t, o)
  {
    CreateFacts(db, target, max, retry, id);
    var r := Create(db, target, max, retry, id);
    if r.Ok? && r.value.Fresh? {
      AllocatedRows(db, target, retry, id, r.value.selected);
    }
  }

  /** Starting a deletion pass leaves no member of the task at the new generation. */
  lemma BeginPurgePass(db: Db, u: TaskId, t: TaskId, o: Oid)
    requires Generations(db) && BeginPurge(db, u).Ok? && PassedAt(BeginPurge(db, u).value, t, o)
    ensures t != u && PassKept(db, BeginPurge(db, u).value, t, o)
  {
    assert (t, o) in db.members;
  }

  /** So does restarting a verification. */
  lemma BeginVerifyPass(db: Db, u: TaskId, restart: bool, t: TaskId, o: Oid)
    requires Generations(db) && BeginVerify(db, u, restart).Ok? && PassedAt(BeginVerify(db, u, restart).value, t, o)
    ensures PassKept(db, BeginVerify(db, u, restart).value, t, o) && (restart ==> t != u)
  {
    assert (t, o) in db.members;
  }

  lemma DeferPass(db: Db, u: TaskId, p: Oid, reason: string, t: TaskId, o: Oid)
    requires Defer(db, u, p, reason).Ok? && PassedAt(Defer(db, u, p, reason).value, t, o)
    ensures PassKept(db, Defer(db, u, p, reason).value, t, o)
  {
  }

  lemma TaskPass(s: Sys, e: TaskEvent, t: TaskId, o: Oid)
    requires Frozen(s.db) && Generations(s.db) && TaskStep(s, e).Some? && PassedAt(TaskStep(s, e).value.db, t, o)
    ensures PassKept(s.db, TaskStep(s, e).value.db, t, o)
  {
    match e
    case CreateTask(target, max, retry, id) => CreatePass(s.db, target, max, retry, id, t, o);
    case DeferOid(id, p, reason) => DeferPass(s.db, ResolveAdmin(s.db, id).value, p, reason, t, o);
    case StartPurge(id) => BeginPurgePass(s.db, ResolvePurge(s.db, id).value, t, o);
    case StartVerify(id, restart) => BeginVerifyPass(s.db, ResolveVerify(s.db, id).value, restart, t, o);
    case _ =>
  }

  lemma PurgePass(s: Sys, e: PurgeEvent, t: TaskId, o: Oid)
    requires PurgeStep(s, e).Some? && PassedAt(PurgeStep(s, e).value.db, t, o)
    ensures PassKept(s.db, PurgeStep(s, e).value.db, t, o)
  {
  }

  lemma VerdictPass(replies: seq<Reply>)
    requires |replies| == 2
    ensures Verdict(replies) == Pass <==> replies == [Empty, Empty]
  {
    assert replies[0] in replies && replies[1] in replies;
    assert forall x :: x in replies ==> x == replies[0] || x == replies[1];
    assert replies[0] == Empty && replies[1] == Empty ==> replies == [Empty, Empty];
  }

  lemma VerifyPass(s: Sys, e: VerifyEvent, t: TaskId, o: Oid)
    requires VerifyStep(s, e).Some? && PassedAt(VerifyStep(s, e).value.db, t, o)
    ensures JudgedPass(s, Verifier(e), t, o) || PassKept(s.db, VerifyStep(s, e).value.db, t, o)
  {
    match e
    case Judge(p) => VerdictPass(s.session.looking.replies);
    case _ =>
  }

  lemma ScanPass(s: Sys, e: ScanEvent, t: TaskId, o: Oid)
    requires ScanStep(s, e).Some? && PassedAt(ScanStep(s, e).value.db, t, o)
    ensures PassKept(s.db, ScanStep(s, e).value.db, t, o)
  {
  }

  /** A PASS in the present generation was there before, or this event recorded it. */
  lemma PassSource(s: Sys, e: Event, next: Sys, t: TaskId, o: Oid)
    requires Frozen(s.db) && Generations(s.db) && Apply(s, e) == Some(next) && PassedAt(next.db, t, o)
    ensures JudgedPass(s, e, t, o) || PassKept(s.db, next.db, t, o)
  {
    match e
    case Open(b) =>
    case Exit =>
    case WriteBack(key, size) =>
    case Scanner(scan) => ScanPass(s, scan, t, o);
    case Tasks(task) => TaskPass(s, task, t, o);
    case Purger(purge) => PurgePass(s, purge, t, o);
    case Verifier(verify) => VerifyPass(s, verify, t, o);
  }

  lemma PassSourceAt(r: Run, m: nat, t: TaskId, o: Oid)
    requires Happened(r) && m < |r.events| && PassedAt(r.states[m + 1].db, t, o)
    ensures JudgedPass(r.states[m], r.events[m], t, o) || PassKept(r.states[m].db, r.states[m + 1].db, t, o)
  {
    AlwaysGood(r, m);
    PassSource(r.states[m], r.events[m], r.states[m + 1], t, o);
  }

  lemma NothingPassedInitially(r: Run, t: TaskId, o: Oid)
    requires Happened(r)
    ensures !PassedAt(r.states[0].db, t, o)
  {
  }

  /** The task has kept its generation over the moments `i` to `n`. */
  ghost predicate SameGeneration(r: Run, i: nat, n: nat, t: TaskId)
    requires n < |r.states|
  {
    forall m :: i <= m <= n ==> t in r.states[m].db.tasks
                                && t in r.states[n].db.tasks
                                && r.states[m].db.tasks[t].generation == r.states[n].db.tasks[t].generation
  }

  /**
   Generation freshness: a PASS that counts now was recorded by an event of this history, and
   since that event the task has stayed in one generation.
   */
  lemma {:induction false} PassIsFresh(r: Run, n: nat, t: TaskId, o: Oid) returns (i: nat)
    requires Happened(r) && n <= |r.events| && PassedAt(r.states[n].db, t, o)
    ensures i < n && JudgedPass(r.states[i], r.events[i], t, o) && SameGeneration(r, i + 1, n, t)
    decreases n
  {
    if n == 0 {
      NothingPassedInitially(r, t, o);
      assert false;
    } else {
      PassSourceAt(r, n - 1, t, o);
      if JudgedPass(r.states[n - 1], r.events[n - 1], t, o) {
        i := n - 1;
      } else {
        i := PassIsFresh(r, n - 1, t, o);
      }
    }
  }

  // ---------------------------------------------------------------- what moves the generation

  /** The event starts a deletion pass over the task, or restarts its verification. */
  predicate Reopens(s: Sys, e: Event, t: TaskId) {
    e.Tasks? && (
      (e.task.StartPurge? && ResolvePurge(s.db, e.task.id) == Ok(t))
      || (e.task.StartVerify? && e.task.restart && ResolveVerify(s.db, e.task.id) == Ok(t)))
  }

  lemma ReopeningMoves(s: Sys, e: Event, next: Sys, t: TaskId)
    requires Apply(s, e) == Some(next) && Reopens(s, e, t)
    ensures t in s.db.tasks && t in next.db.tasks && !next.db.tasks[t].done
            && next.db.tasks[t].generation == s.db.tasks[t].generation + 1
  {
  }

  /** While the generation stands still, no deletion pass and no restart of the task begins. */
  lemma NoReopening(r: Run, i: nat, n: nat, t: TaskId, m: nat)
    requires Happened(r) && i <= m < n <= |r.events| && SameGeneration(r, i, n, t)
    ensures !Reopens(r.states[m], r.events[m], t)
  {
    if Reopens(r.states[m], r.events[m], t) {
      ReopeningMoves(r.states[m], r.events[m], r.states[m + 1], t);
    }
  }

  /**
   Every PASS that counts, in particular every one counted when a task is finished, was recorded
   after the last deletion pass and the last restart of its task.
   */
  lemma PassFollowsLastPurge(r: Run, n: nat, t: TaskId, o: Oid) returns (i: nat)
    requires Happened(r) && n <= |r.events| && PassedAt(r.states[n].db, t, o)
    ensures i < n && JudgedPass(r.states[i], r.events[i], t, o)
    ensures forall m :: i < m < n ==> !Reopens(r.states[m], r.events[m], t)
  {
    i := PassIsFresh(r, n, t, o);
    forall m | i < m < n ensures !Reopens(r.states[m], r.events[m], t) {
      NoReopening(r, i + 1, n, t, m);
    }
  }

  // ---------------------------------------------------------------- where the replies come from

  /** At this moment a verification of the task is running, in this generation. */
  predicate InVerify(s: Sys, t: TaskId, generation: nat) {
    s.session.Verifying? && s.session.task == t && s.session.generation == generation
  }

  predicate Collected(s: Sys, o: Oid, replies: seq<Reply>) {
    s.session.Verifying? && s.session.looking == Object(o, replies)
  }

  /** Replies are collected one by one, each true of the store at its own moment. */
  lemma ReplySource(s: Sys, e: Event, next: Sys, o: Oid, replies: seq<Reply>)
    requires Apply(s, e) == Some(next) && Collected(next, o, replies)
    ensures s.session.Verifying? && InVerify(next, s.session.task, s.session.generation)
    ensures Collected(s, o, replies)
            || (|replies| == 1 && Truthful(s.store, o, 0, replies[0]))
            || (|replies| == 2 && Truthful(s.store, o, 1, replies[1]) && Collected(s, o, replies[..1]))
  {
  }

  lemma {:induction false} FirstReply(r: Run, n: nat, o: Oid, replies: seq<Reply>) returns (a: nat)
    requires Happened(r) && n <= |r.events| && Collected(r.states[n], o, replies)
    ensures 1 <= |replies| && a < n && Truthful(r.states[a].store, o, 0, replies[0])
    ensures InVerify(r.states[a], r.states[n].session.task, r.states[n].session.generation)
    decreases n
  {
    if n == 0 {
      assert false;
    } else {
      ReplySource(r.states[n - 1], r.events[n - 1], r.states[n], o, replies);
      if |replies| == 1 && Truthful(r.states[n - 1].store, o, 0, replies[0]) {
        a := n - 1;
      } else if Collected(r.states[n - 1], o, replies) {
        a := FirstReply(r, n - 1, o, replies);
      } else {
        a := FirstReply(r, n - 1, o, replies[..1]);
      }
    }
  }

  lemma {:induction false} SecondReply(r: Run, n: nat, o: Oid, replies: seq<Reply>) returns (b: nat)
    requires Happened(r) && n <= |r.events| && Collected(r.states[n], o, replies) && |replies| == 2
    ensures b < n && Truthful(r.states[b].store, o, 1, replies[1])
    ensures InVerify(r.states[b], r.states[n].session.task, r.states[n].session.generation)
    decreases n
  {
    if n == 0 {
      assert false;
    } else {
      ReplySource(r.states[n - 1], r.events[n - 1], r.states[n], o, replies);
      if Truthful(r.states[n - 1].store, o, 1, replies[1]) {
        b := n - 1;
      } else {
        b := SecondReply(r, n - 1, o, replies);
      }
    }
  }

  // ---------------------------------------------------------------- keys that come back

  /** A key that was absent and is present was written back in between, by somebody else. */
  lemma {:induction false} KeyCameBack(r: Run, i: nat, n: nat, k: string) returns (m: nat)
    requires Happened(r) && i <= n <= |r.events| && k !in r.states[i].store && k in r.states[n].store
    ensures i <= m < n && r.events[m].WriteBack? && r.events[m].key == k
    decreases n
  {
    if i == n {
      assert false;
    } else if k in r.states[n - 1].store {
      m := KeyCameBack(r, i, n - 1, k);
    } else {
      m := n - 1;
      OnlyWriteBackAdds(r.states[n - 1], r.events[n - 1], r.states[n], k);
    }
  }

  lemma OnlyWriteBackAdds(s: Sys, e: Event, next: Sys, k: string)
    requires Apply(s, e) == Some(next) && k !in s.store && k in next.store
    ensures e.WriteBack? && e.key == k
  {
  }

  // ---------------------------------------------------------------- end to end

  /** The prefix of the object was found empty at moment `a`, in the task's last verification. */
  ghost predicate SeenEmpty(r: Run, a: nat, n: nat, t: TaskId, o: Oid, i: nat)
    requires |r.states| == |r.events| + 1 && n <= |r.events| && i < 2
  {
    && a < n && Under(r.states[a].store, o, i) == {}
    && t in r.states[n].db.tasks && InVerify(r.states[a], t, r.states[n].db.tasks[t].generation)
  }

  /** A PASS that counts now rests on two emptiness checks made in the task's present generation. */
  lemma PassWasSeen(r: Run, n: nat, t: TaskId, o: Oid) returns (a: nat, b: nat)
    requires Happened(r) && n <= |r.events| && PassedAt(r.states[n].db, t, o)
    ensures SeenEmpty(r, a, n, t, o, 0) && SeenEmpty(r, b, n, t, o, 1)
  {
    var i := PassIsFresh(r, n, t, o);
    a := FirstReply(r, i, o, [Empty, Empty]);
    b := SecondReply(r, i, o, [Empty, Empty]);
    AlwaysGood(r, i);
    JudgeKeepsGeneration(r, i, t, o);
    assert SameGeneration(r, i + 1, n, t);
  }

  lemma JudgeKeepsGeneration(r: Run, i: nat, t: TaskId, o: Oid)
    requires Happened(r) && i < |r.events| && JudgedPass(r.states[i], r.events[i], t, o)
    ensures t in r.states[i + 1].db.tasks
            && r.states[i + 1].db.tasks[t].generation == r.states[i].session.generation
  {
    AlwaysGood(r, i);
    assert Apply(r.states[i], r.events[i]) == Some(r.states[i + 1]);
  }

  /**
   When the tool reports ALL_DONE, each object of the sealed list has one assignment in force,
   in a finished task, and both of its prefixes were seen empty in that task's last generation.
   */
  lemma AllDoneEvidence(r: Run, n: nat, o: Oid) returns (t: TaskId, a: nat, b: nat)
    requires Happened(r) && n <= |r.events| && AllDone(r.states[n].db, r.states[n].session != Idle)
    requires o in r.states[n].db.scan
    ensures Cleared(r.states[n].db, o, t) && forall u :: Active(r.states[n].db, u, o) ==> u == t
    ensures SeenEmpty(r, a, n, t, o, 0) && SeenEmpty(r, b, n, t, o, 1)
  {
    AlwaysGood(r, n);
    AllDoneIsBacked(r.states[n].db, r.states[n].session != Idle);
    t :| Cleared(r.states[n].db, o, t) && forall u :: Active(r.states[n].db, u, o) ==> u == t;
    a, b := PassWasSeen(r, n, t, o);
  }

  /** Any key left under a cleared object was written back by somebody after that check. */
  lemma ResidueWasWrittenBack(r: Run, n: nat, o: Oid, k: string) returns (seen: nat, m: nat)
    requires Happened(r) && n <= |r.events| && AllDone(r.states[n].db, r.states[n].session != Idle)
    requires o in r.states[n].db.scan && k in Residues(r.states[n].store, o)
    ensures seen <= m < n && k !in r.states[seen].store && r.states[seen].session.Verifying?
    ensures r.events[m].WriteBack? && r.events[m].key == k
  {
    var t, a, b := AllDoneEvidence(r, n, o);
    var first := k in Under(r.states[n].store, o, 0);
    seen := if first then a else b;
    assert k !in r.states[seen].store by {
      assert k !in Under(r.states[seen].store, o, if first then 0 else 1);
    }
    m := KeyCameBack(r, seen, n, k);
  }

  /** If nobody writes keys back, ALL_DONE means that nothing of any scanned object is left. */
  lemma AllDoneIsEmpty(r: Run, n: nat)
    requires Happened(r) && n <= |r.events| && AllDone(r.states[n].db, r.states[n].session != Idle)
    requires forall m :: 0 <= m < n ==> !r.events[m].WriteBack?
    ensures forall o :: o in r.states[n].db.scan ==> Residues(r.states[n].store, o) == {}
  {
    forall o, k | o in r.states[n].db.scan && k in Residues(r.states[n].store, o) ensures false {
      var seen, m := ResidueWasWrittenBack(r, n, o, k);
    }
  }
}
