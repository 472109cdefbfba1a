/**
 What trouble does to a concurrent run, in every interleaving: a failed attempt ends admission, a
 violation halts the run under its own alarm, a lost record stops it, and the run reports success
 exactly when none of this happened.
 */
module ProtocolOutcomes {
  import opened Wrappers
  import opened Ledger
  import opened LedgerInvariants
  import opened LedgerOutcomes
  import opened Storage
  import opened System
  import opened SystemInvariants
  import opened Protocol
  import opened ProtocolInvariants
  import opened ProtocolTheorems
  import Engine
  import Keyset

  /** Nothing more will be let through. */
  predicate Ended(st: State) {
    st.stopped || st.cancelled
  }

  /** Only worker `w` moves; what ended or halted the run is not undone. */
  ghost predicate Moves(st: State, w: nat, next: State) {
    && w < |st.workers| == |next.workers| && next.workers == st.workers[w := next.workers[w]]
    && (Ended(st) ==> Ended(next)) && (Halted(st) ==> Halted(next)) && (st.interrupted ==> next.interrupted)
    && (st.stopped ==> next.stopped) && st.failed <= next.failed
  }

  // ---------------------------------------------------------------- failures end admission

  /** A failure is written only once it has ended admission, a violation only once it has halted the run. */
  predicate Settled(p: Worker, ended: bool, halted: bool) {
    match p
    case Writing(_, outcome) => (outcome != Success ==> ended) && (outcome == Safety ==> halted)
    case Alerting(_) => ended && halted
    case _ => true
  }

  ghost predicate AllSettled(st: State) {
    && (0 < st.failed ==> Ended(st))
    && forall w :: 0 <= w < |st.workers| ==> Settled(st.workers[w], Ended(st), Halted(st))
  }

  ghost predicate KeepsSettled(st: State, w: nat, next: State) {
    && Moves(st, w, next) && Settled(next.workers[w], Ended(next), Halted(next))
    && (0 < next.failed ==> 0 < st.failed || Ended(next))
  }

  lemma StartSettles(st: State, w: nat, e: WorkEvent, next: State)
    requires w < |st.workers| && StartStep(st, w, e) == Some(next)
    ensures KeepsSettled(st, w, next)
  {
  }

  lemma WorkSettles(st: State, w: nat, e: WorkEvent, next: State)
    requires w < |st.workers| && WorkStep(st, w, e) == Some(next)
    ensures KeepsSettled(st, w, next)
  {
  }

  lemma DecideSettles(st: State, w: nat, e: WorkEvent, next: State)
    requires w < |st.workers| && DecideStep(st, w, e) == Some(next)
    ensures KeepsSettled(st, w, next)
  {
  }

  lemma HaltSettles(st: State, w: nat, e: WorkEvent, next: State)
    requires Alarm(st) && w < |st.workers| && HaltStep(st, w, e) == Some(next)
    requires Settled(st.workers[w], Ended(st), Halted(st))
    ensures KeepsSettled(st, w, next)
  {
  }

  lemma WriteSettles(st: State, w: nat, ok: bool, applied: bool, next: State)
    requires w < |st.workers| && WriteStep(st, w, ok, applied) == Some(next)
    requires Settled(st.workers[w], Ended(st), Halted(st))
    ensures KeepsSettled(st, w, next)
  {
  }

  lemma WorkerSettles(st: State, w: nat, e: WorkEvent, next: State)
    requires Alarm(st) && w < |st.workers| && WorkerStep(st, w, e) == Some(next)
    requires Settled(st.workers[w], Ended(st), Halted(st))
    ensures KeepsSettled(st, w, next)
  {
    if e.Take? || e.Begin? || e.Enter? {
      StartSettles(st, w, e, next);
    } else if IsWork(e) {
      WorkSettles(st, w, e, next);
    } else if e.Decide? || e.Stop? {
      DecideSettles(st, w, e, next);
    } else if e.Write? {
      WriteSettles(st, w, e.ok, e.applied, next);
    } else {
      HaltSettles(st, w, e, next);
    }
  }

  /** The feeder moves no worker, and it stops the run when a page cannot be claimed. */
  lemma FeedMoves(st: State, e: FeedEvent, next: State)
    requires FeedStep(st, e) == Some(next)
    ensures next.workers == st.workers && next.failed == st.failed && next.halt == st.halt
    ensures next.cancelled == st.cancelled && next.interrupted == st.interrupted && next.unrecorded == st.unrecorded
    ensures next.stopped <==> st.stopped || e == Claim(false)
  {
  }

  lemma SettledKept(st: State, e: Step, next: State)
    requires Alarm(st) && AllSettled(st) && Next(st, e) == Some(next)
    ensures AllSettled(next)
  {
    match e
    case Interrupt =>
    case Others(_, _) =>
    case Feeder(f) => FeedMoves(st, f, next);
    case AtWorker(w, f) => WorkerSettles(st, w, f, next);
  }

  lemma {:induction false} AlwaysSettled(t: Trace, n: nat)
    requires Ran(t) && n <= |t.steps|
    ensures AllSettled(t.states[n])
  {
    if n > 0 {
      AlwaysSettled(t, n - 1);
      AlwaysCoherent(t, n - 1);
      SettledKept(t.states[n - 1], t.steps[n - 1], t.states[n]);
    }
  }

  /** Once a failed result has been written, no further object is let through. */
  lemma FailureEndsAdmission(t: Trace, i: nat, j: nat)
    requires Ran(t) && i <= j <= |t.steps| && 0 < t.states[i].failed
    ensures Ended(t.states[i]) && t.states[j].past.admitted == t.states[i].past.admitted
  {
    AlwaysSettled(t, i);
    StopEndsAdmission(t, i, j);
  }

  // ---------------------------------------------------------------- from the attempt to the stop

  /** The worker holds a failed attempt on the object and has not yet acted on it. */
  predicate Undecided(p: Worker, o: Oid) {
    p == Returned(o, Ordinary) || p == Returned(o, Safety) || p == Stopping(o) || p == Halting(o)
  }

  lemma UndecidedStep(st: State, w: nat, o: Oid, e: WorkEvent, next: State)
    requires Alarm(st) && w < |st.workers| && WorkerStep(st, w, e) == Some(next) && Undecided(st.workers[w], o)
    ensures Undecided(next.workers[w], o) || Ended(next)
  {
  }

  /** The attempt fails at step `m`: by the time its worker goes on to the result, admission has ended. */
  lemma {:induction false} FailedAttemptStops(t: Trace, m: nat, j: nat, w: nat, f: Engine.Failure)
    requires Ran(t) && m < j <= |t.steps| && t.steps[m] == AtWorker(w, Return(Some(f)))
    ensures w < |t.states[m].workers| && w < |t.states[j].workers| && t.states[m].workers[w].Working?
    ensures Undecided(t.states[j].workers[w], t.states[m].workers[w].oid) || Ended(t.states[j])
    decreases j
  {
    SameWidth(t, m);
    SameWidth(t, j);
    assert Next(t.states[m], t.steps[m]) == Some(t.states[m + 1]);
    ReturnsUndecided(t.states[m], w, f, t.states[m + 1]);
    if m + 1 < j {
      FailedAttemptStops(t, m, j - 1, w, f);
      SameWidth(t, j - 1);
      AlwaysCoherent(t, j - 1);
      AlwaysSettled(t, j - 1);
      StaysUndecided(t.states[j - 1], t.steps[j - 1], t.states[j], w, t.states[m].workers[w].oid);
    }
  }

  lemma ReturnsUndecided(st: State, w: nat, f: Engine.Failure, next: State)
    requires Next(st, AtWorker(w, Return(Some(f)))) == Some(next)
    ensures w < |st.workers| == |next.workers| && st.workers[w].Working?
    ensures Undecided(next.workers[w], st.workers[w].oid)
  {
  }

  lemma StaysUndecided(st: State, e: Step, next: State, w: nat, o: Oid)
    requires Alarm(st) && AllSettled(st) && Next(st, e) == Some(next) && w < |st.workers| == |next.workers|
    requires Undecided(st.workers[w], o) || Ended(st)
    ensures Undecided(next.workers[w], o) || Ended(next)
  {
    match e
    case Interrupt =>
    case Others(_, _) =>
    case Feeder(f) => FeedMoves(st, f, next);
    case AtWorker(v, f) =>
      WorkerSettles(st, v, f, next);
      if v == w && Undecided(st.workers[w], o) {
        UndecidedStep(st, w, o, f, next);
      }
  }

  /** The failures that put the scope of the task in doubt: the wrong object, or keys that are none of its pieces. */
  predicate Violation(f: Engine.Failure) {
    f == Engine.IdentityMismatch || f == Engine.UnknownKeys
  }

  /** The worker holds a violation and has not yet reached the halt. */
  predicate Unhalted(p: Worker, o: Oid) {
    p == Returned(o, Safety) || p == Halting(o)
  }

  lemma UnhaltedStep(st: State, w: nat, o: Oid, e: WorkEvent, next: State)
    requires w < |st.workers| && WorkerStep(st, w, e) == Some(next) && Unhalted(st.workers[w], o)
    ensures Unhalted(next.workers[w], o) || Halted(next)
  {
  }

  lemma ReturnsUnhalted(st: State, w: nat, f: Engine.Failure, next: State)
    requires Next(st, AtWorker(w, Return(Some(f)))) == Some(next) && Violation(f)
    ensures w < |st.workers| == |next.workers| && st.workers[w].Working? && Unhalted(next.workers[w], st.workers[w].oid)
  {
  }

  lemma StaysUnhalted(st: State, e: Step, next: State, w: nat, o: Oid)
    requires Alarm(st) && AllSettled(st) && Next(st, e) == Some(next) && w < |st.workers| == |next.workers|
    requires Unhalted(st.workers[w], o) || Halted(st)
    ensures Unhalted(next.workers[w], o) || Halted(next)
  {
    match e
    case Interrupt =>
    case Others(_, _) =>
    case Feeder(f) => FeedMoves(st, f, next);
    case AtWorker(v, f) =>
      WorkerSettles(st, v, f, next);
      if v == w && Unhalted(st.workers[w], o) {
        UnhaltedStep(st, w, o, f, next);
      }
  }

  /** The attempt meets a violation at step `m`: by the time its worker goes on to the result, the run is halted. */
  lemma {:induction false} ViolationHalts(t: Trace, m: nat, j: nat, w: nat, f: Engine.Failure)
    requires Ran(t) && m < j <= |t.steps| && t.steps[m] == AtWorker(w, Return(Some(f))) && Violation(f)
    ensures w < |t.states[m].workers| && w < |t.states[j].workers| && t.states[m].workers[w].Working?
    ensures Unhalted(t.states[j].workers[w], t.states[m].workers[w].oid) || Halted(t.states[j])
    decreases j
  {
    SameWidth(t, m);
    SameWidth(t, j);
    assert Next(t.states[m], t.steps[m]) == Some(t.states[m + 1]);
    ReturnsUnhalted(t.states[m], w, f, t.states[m + 1]);
    if m + 1 < j {
      ViolationHalts(t, m, j - 1, w, f);
      SameWidth(t, j - 1);
      AlwaysCoherent(t, j - 1);
      AlwaysSettled(t, j - 1);
      StaysUnhalted(t.states[j - 1], t.steps[j - 1], t.states[j], w, t.states[m].workers[w].oid);
    }
  }

  /**
   A run in which an attempt met a violation ends halted: everything was cancelled and the alarm
   was raised exactly once. A run in which an attempt failed otherwise ends stopped or cancelled.
   */
  lemma RunEndsAsItFailed(t: Trace, m: nat, n: nat, w: nat, f: Engine.Failure)
    requires Ran(t) && m < n <= |t.steps| && t.steps[m] == AtWorker(w, Return(Some(f))) && Over(t.states[n])
    ensures Ended(t.states[n])
    ensures Violation(f) ==> t.states[n].halt == Latched && t.states[n].cancelled && t.states[n].past.alerts == 1
  {
    FailedAttemptStops(t, m, n, w, f);
    if Violation(f) {
      ViolationHalts(t, m, n, w, f);
      AlwaysCoherent(t, n);
      OneAlarm(t, n);
    }
  }

  // ---------------------------------------------------------------- when the run reports success

  /** A step that something is wrong with. */
  predicate Mishap(e: Step) {
    match e
    case Interrupt => true
    case Others(_, _) => false
    case Feeder(f) => f == Claim(false)
    case AtWorker(_, f) => (f.Return? && f.err.Some?) || (f.Write? && !f.ok)
  }

  /** The worker is in the middle of some trouble. */
  predicate Troubled(p: Worker) {
    match p
    case Returned(_, outcome) => outcome != Success
    case Writing(_, outcome) => outcome != Success
    case Stopping(_) => true
    case Halting(_) => true
    case Alerting(_) => true
    case Unsaved(_) => true
    case _ => false
  }

  /** Trouble has left its mark on the run. */
  ghost predicate Marked(st: State) {
    || st.interrupted || st.stopped || Halted(st) || 0 < st.failed
    || exists w :: 0 <= w < |st.workers| && Troubled(st.workers[w])
  }

  ghost predicate MarkStays(st: State, w: nat, next: State) {
    && Moves(st, w, next)
    && (Troubled(st.workers[w]) ==>
          Troubled(next.workers[w]) || next.interrupted || next.stopped || Halted(next) || 0 < next.failed)
  }

  lemma StartMark(st: State, w: nat, e: WorkEvent, next: State)
    requires w < |st.workers| && StartStep(st, w, e) == Some(next)
    ensures MarkStays(st, w, next) && (Troubled(next.workers[w]) ==> Troubled(st.workers[w]))
    ensures next.failed == st.failed && next.unrecorded == st.unrecorded && next.halt == st.halt
    ensures next.stopped == st.stopped && next.interrupted == st.interrupted
  {
  }

  lemma WorkMark(st: State, w: nat, e: WorkEvent, next: State)
    requires w < |st.workers| && WorkStep(st, w, e) == Some(next)
    ensures MarkStays(st, w, next)
    ensures if e.Return? && e.err.Some? then Troubled(next.workers[w])
            else Troubled(next.workers[w]) ==> Troubled(st.workers[w])
    ensures next.failed == st.failed && next.unrecorded == st.unrecorded && next.halt == st.halt
    ensures next.stopped == st.stopped && next.interrupted == st.interrupted
  {
  }

  lemma DecideMark(st: State, w: nat, e: WorkEvent, next: State)
    requires Flags(st) && w < |st.workers| && DecideStep(st, w, e) == Some(next)
    ensures MarkStays(st, w, next)
    ensures Troubled(next.workers[w]) || next.stopped ==> Troubled(st.workers[w]) || st.stopped
    ensures next.failed == st.failed && next.unrecorded == st.unrecorded && next.halt == st.halt
    ensures next.interrupted == st.interrupted
  {
  }

  lemma HaltMark(st: State, w: nat, e: WorkEvent, next: State)
    requires w < |st.workers| && HaltStep(st, w, e) == Some(next)
    ensures MarkStays(st, w, next) && Troubled(st.workers[w])
  {
  }

  lemma WriteMark(st: State, w: nat, ok: bool, applied: bool, next: State)
    requires w < |st.workers| && WriteStep(st, w, ok, applied) == Some(next)
    ensures MarkStays(st, w, next)
    ensures !ok ==> Troubled(next.workers[w]) || 0 < next.failed
    ensures ok && !Troubled(st.workers[w]) ==>
              !Troubled(next.workers[w]) && next.failed == st.failed && next.unrecorded <= st.unrecorded
    ensures next.halt == st.halt && next.stopped == st.stopped && next.interrupted == st.interrupted
  {
  }

  lemma WorkerMark(st: State, w: nat, e: WorkEvent, next: State)
    requires Flags(st) && w < |st.workers| && WorkerStep(st, w, e) == Some(next)
    ensures MarkStays(st, w, next)
    ensures Mishap(AtWorker(w, e)) ==> Troubled(next.workers[w]) || 0 < next.failed
  {
    if e.Take? || e.Begin? || e.Enter? {
      StartMark(st, w, e, next);
    } else if IsWork(e) {
      WorkMark(st, w, e, next);
    } else if e.Decide? || e.Stop? {
      DecideMark(st, w, e, next);
    } else if e.Write? {
      WriteMark(st, w, e.ok, e.applied, next);
    } else {
      HaltMark(st, w, e, next);
    }
  }

  lemma OneStillTroubled(st: State, w: nat, next: State)
    requires MarkStays(st, w, next) && Marked(st)
    ensures Marked(next)
  {
    if v :| 0 <= v < |st.workers| && Troubled(st.workers[v]) {
      assert v != w ==> next.workers[v] == st.workers[v];
    }
  }

  /** A mishap leaves its mark, and no step removes it. */
  lemma MarkKept(st: State, e: Step, next: State)
    requires Flags(st) && Next(st, e) == Some(next) && (Marked(st) || Mishap(e))
    ensures Marked(next)
  {
    match e
    case Interrupt =>
    case Others(_, _) =>
    case Feeder(f) => FeedMoves(st, f, next);
    case AtWorker(w, f) =>
      WorkerMark(st, w, f, next);
      if Marked(st) {
        OneStillTroubled(st, w, next);
      }
  }

  /** Nothing has gone wrong so far. */
  ghost predicate Calm(st: State) {
    && !st.interrupted && !st.stopped && !Halted(st) && st.failed == 0 && st.unrecorded == {}
    && forall w :: 0 <= w < |st.workers| ==> !Troubled(st.workers[w])
  }

  lemma WorkerCalm(st: State, w: nat, e: WorkEvent, next: State)
    requires Flags(st) && Calm(st) && w < |st.workers| && WorkerStep(st, w, e) == Some(next)
    requires !Mishap(AtWorker(w, e))
    ensures Calm(next)
  {
    if e.Take? || e.Begin? || e.Enter? {
      StartMark(st, w, e, next);
    } else if IsWork(e) {
      WorkMark(st, w, e, next);
    } else if e.Decide? || e.Stop? {
      DecideMark(st, w, e, next);
    } else if e.Write? {
      WriteMark(st, w, e.ok, e.applied, next);
    } else {
      HaltMark(st, w, e, next);
    }
  }

  lemma CalmKept(st: State, e: Step, next: State)
    requires Flags(st) && Calm(st) && Next(st, e) == Some(next) && !Mishap(e)
    ensures Calm(next)
  {
    match e
    case Others(_, _) =>
    case Feeder(f) => FeedMoves(st, f, next);
    case AtWorker(w, f) => WorkerCalm(st, w, f, next);
  }

  ghost predicate Clean(t: Trace, n: nat) {
    n <= |t.steps| && forall m :: 0 <= m < n ==> !Mishap(t.steps[m])
  }

  lemma OneMoreStep(t: Trace, n: nat)
    requires Ran(t) && n < |t.steps|
    ensures Calm(t.states[n]) && !Mishap(t.steps[n]) ==> Calm(t.states[n + 1])
    ensures Marked(t.states[n]) || Mishap(t.steps[n]) ==> Marked(t.states[n + 1])
  {
    var st, e, next := t.states[n], t.steps[n], t.states[n + 1];
    AlwaysCoherent(t, n);
    assert Next(st, e) == Some(next);
    if Calm(st) && !Mishap(e) {
      CalmKept(st, e, next);
    }
    if Marked(st) || Mishap(e) {
      MarkKept(st, e, next);
    }
  }

  lemma {:induction false} CleanOrMarked(t: Trace, n: nat)
    requires Ran(t) && n <= |t.steps|
    ensures if Clean(t, n) then Calm(t.states[n]) else Marked(t.states[n])
  {
    if n > 0 {
      CleanOrMarked(t, n - 1);
      OneMoreStep(t, n - 1);
      assert Clean(t, n) <==> Clean(t, n - 1) && !Mishap(t.steps[n - 1]);
    }
  }

  lemma OverAndMarked(st: State)
    requires Over(st) && Marked(st)
    ensures !Succeeds(st)
  {
  }

  lemma OverAndCalm(st: State)
    requires Over(st) && Calm(st) && Flags(st)
    ensures Succeeds(st)
  {
  }

  /**
   A run that is over reports success exactly when nothing went wrong in it: no interruption, no
   page that could not be claimed, no attempt with an error, and no write reported as failed.
   */
  lemma SuccessIsClean(t: Trace, n: nat)
    requires Ran(t) && n <= |t.steps| && Over(t.states[n])
    ensures Succeeds(t.states[n]) <==> Clean(t, n)
  {
    CleanOrMarked(t, n);
    AlwaysCoherent(t, n);
    if Clean(t, n) {
      OverAndCalm(t.states[n]);
    } else {
      OverAndMarked(t.states[n]);
    }
  }

  // ---------------------------------------------------------------- what the run counts

  /** The step writes a failed result. */
  predicate FailedWrite(st: State, e: Step) {
    && e.AtWorker? && e.work.Write? && e.worker < |st.workers|
    && st.workers[e.worker].Writing? && st.workers[e.worker].outcome != Success
  }

  /** The step writes a result of the object and is told that this failed. */
  predicate LostWrite(st: State, e: Step, o: Oid) {
    && e.AtWorker? && e.work.Write? && !e.work.ok && e.worker < |st.workers|
    && st.workers[e.worker].Writing? && st.workers[e.worker].oid == o
  }

  function FailedWrites(t: Trace, n: nat): nat
    requires n <= |t.steps| < |t.states|
  {
    if n == 0 then 0
    else FailedWrites(t, n - 1) + if FailedWrite(t.states[n - 1], t.steps[n - 1]) then 1 else 0
  }

  lemma StartCounts(st: State, w: nat, e: WorkEvent, next: State)
    requires w < |st.workers| && WorkerStep(st, w, e) == Some(next) && !e.Write?
    ensures next.failed == st.failed && next.unrecorded == st.unrecorded && next.past.writes == st.past.writes
  {
    if e.Take? || e.Begin? || e.Enter? {
    } else if IsWork(e) {
      WorkEffect(st, w, e, next);
      WorkMark(st, w, e, next);
    } else if e.Decide? || e.Stop? {
      DecideEffect(st, w, e, next);
    } else {
      HaltEffect(st, w, e, next);
    }
  }

  /** How one step counts; the one result write of an object decides whether it goes unrecorded. */
  lemma StepCounts(st: State, e: Step, next: State, o: Oid)
    requires Core(st.workers, st.past) && Next(st, e) == Some(next)
    requires st.past.writes[o] == 0 ==> o !in st.unrecorded
    ensures next.failed == st.failed + if FailedWrite(st, e) then 1 else 0
    ensures o in next.unrecorded <==> o in st.unrecorded || LostWrite(st, e, o)
    ensures next.past.writes[o] == 0 ==> o !in next.unrecorded
  {
    match e
    case Interrupt =>
    case Others(_, _) =>
    case Feeder(f) => FeedMoves(st, f, next);
    case AtWorker(w, f) =>
      if !f.Write? {
        StartCounts(st, w, f, next);
      }
  }

  lemma {:induction false} FailedCounts(t: Trace, n: nat)
    requires Ran(t) && n <= |t.steps|
    ensures t.states[n].failed == FailedWrites(t, n)
  {
    if n > 0 {
      FailedCounts(t, n - 1);
      RecordsKept(t, n - 1, 0);
      AlwaysCoherent(t, n - 1);
      StepCounts(t.states[n - 1], t.steps[n - 1], t.states[n], 0);
    }
  }

  /** A result write of the object has been reported as failed. */
  ghost predicate Lost(t: Trace, n: nat, o: Oid)
    requires n <= |t.steps| < |t.states|
  {
    exists m :: 0 <= m < n && LostWrite(t.states[m], t.steps[m], o)
  }

  lemma LostNext(t: Trace, n: nat, o: Oid)
    requires n < |t.steps| < |t.states|
    ensures Lost(t, n + 1, o) <==> Lost(t, n, o) || LostWrite(t.states[n], t.steps[n], o)
  {
    if Lost(t, n, o) {
      var m :| 0 <= m < n && LostWrite(t.states[m], t.steps[m], o);
      assert 0 <= m < n + 1;
    }
  }

  /** What the run calls unrecorded are exactly the objects whose result write was reported as failed. */
  lemma {:induction false} RecordsKept(t: Trace, n: nat, o: Oid)
    requires Ran(t) && n <= |t.steps|
    ensures o in t.states[n].unrecorded <==> Lost(t, n, o)
    ensures t.states[n].past.writes[o] == 0 ==> o !in t.states[n].unrecorded
  {
    if n > 0 {
      RecordsKept(t, n - 1, o);
      LostNext(t, n - 1, o);
      AlwaysCoherent(t, n - 1);
      StepCounts(t.states[n - 1], t.steps[n - 1], t.states[n], o);
    }
  }

  // ---------------------------------------------------------------- what ends admission

  /** A failed result is written, a lost completion is acted on, or a page could not be claimed. */
  predicate EndsAdmission(st: State, e: Step) {
    || FailedWrite(st, e) || e == Feeder(Claim(false))
    || (e.AtWorker? && e.work.Stop? && e.worker < |st.workers| && st.workers[e.worker].Unsaved?)
  }

  lemma AdmissionEnds(st: State, e: Step, next: State)
    requires Alarm(st) && AllSettled(st) && Next(st, e) == Some(next) && EndsAdmission(st, e)
    ensures Ended(next) && next.past.admitted == st.past.admitted
  {
    if e.AtWorker? && FailedWrite(st, e) {
      WriteSettles(st, e.worker, e.work.ok, e.work.applied, next);
    }
  }

  /** After such a step no object is ever let through again. */
  lemma NothingAdmittedAfter(t: Trace, i: nat, j: nat)
    requires Ran(t) && i < j <= |t.steps| && EndsAdmission(t.states[i], t.steps[i])
    ensures t.states[j].past.admitted == t.states[i].past.admitted
  {
    AlwaysCoherent(t, i);
    AlwaysSettled(t, i);
    AdmissionEnds(t.states[i], t.steps[i], t.states[i + 1]);
    StopEndsAdmission(t, i + 1, j);
  }

  // ---------------------------------------------------------------- what reaches the tables

  /** A result write that takes effect says of the object what its attempt did. */
  lemma ResultReaches(st: State, w: nat, ok: bool, next: State)
    requires SessionOk(st.sys) && Milestones(st.sys.db) && InStep(st) && w < |st.workers| && st.workers[w].Writing?
    requires WriteStep(st, w, ok, true) == Some(next)
    ensures var o := st.workers[w].oid; var db := next.sys.db;
            && o in db.progress && (Processed(db, o) <==> st.workers[w].outcome == Success)
            && (st.workers[w].outcome == Success ==> !Claimable(db, st.sys.session.task, o))
  {
    var o, t := st.workers[w].oid, st.sys.session.task;
    HandIsWork(st, w);
    var a := st.sys.session.work[o];
    RecordDoneExact(st.sys.db, t, o, a.keys, a.bytes);
    RecordFailExact(st.sys.db, t, o, a.keys, a.bytes);
  }

  lemma UnappliedLeavesTables(st: State, w: nat, ok: bool, next: State)
    requires w < |st.workers| && WriteStep(st, w, ok, false) == Some(next)
    ensures next.sys.db == st.sys.db
  {
  }

  /**
   In every interleaving of a pass that a history has begun, a result write that takes effect
   records success as processed and failure as failed, and one that does not changes no table.
   */
  lemma ResultsReachTheTable(r: Run, t: Trace, m: nat, w: nat, ok: bool, applied: bool)
    requires Happened(r) && Ran(t) && t.states[0].sys == Last(r)
    requires m < |t.steps| && t.steps[m] == AtWorker(w, Write(ok, applied))
    ensures w < |t.states[m].workers| && t.states[m].workers[w].Writing?
    ensures var p, db := t.states[m].workers[w], t.states[m + 1].sys.db;
            if applied then p.oid in db.progress && (Processed(db, p.oid) <==> p.outcome == Success)
            else db == t.states[m].sys.db
  {
    var st, next := t.states[m], t.states[m + 1];
    assert Next(st, t.steps[m]) == Some(next);
    EndIsGood(r, t, m);
    AlwaysInStep(t, m);
    if applied {
      ResultReaches(st, w, ok, next);
    } else {
      UnappliedLeavesTables(st, w, ok, next);
    }
  }

  /** An alarm that can be written is latched under the object that caused it. */
  lemma AlertLatches(st: State, w: nat, reason: string, next: State)
    requires SessionOk(st.sys) && InStep(st) && Alarm(st) && w < |st.workers| && st.workers[w].Alerting?
    requires HaltStep(st, w, Alert(true, reason)) == Some(next)
    ensures var t := st.sys.session.task;
            t in next.sys.db.tasks && Held(next.sys.db.tasks[t])
            && next.sys.db.tasks[t].holdOid == Some(st.workers[w].oid)
  {
    HandIsWork(st, w);
    HoldExact(st.sys.db, st.sys.session.task, Some(st.workers[w].oid), reason);
  }

  lemma AlarmIsLatched(r: Run, t: Trace, m: nat, w: nat, reason: string)
    requires Happened(r) && Ran(t) && t.states[0].sys == Last(r)
    requires m < |t.steps| && t.steps[m] == AtWorker(w, Alert(true, reason))
    ensures w < |t.states[m].workers| && t.states[m].workers[w].Alerting?
    ensures var task, db := t.states[0].sys.session.task, t.states[m + 1].sys.db;
            task in db.tasks && Held(db.tasks[task]) && db.tasks[task].holdOid == Some(t.states[m].workers[w].oid)
  {
    var st, next := t.states[m], t.states[m + 1];
    assert Next(st, t.steps[m]) == Some(next);
    EndIsGood(r, t, m);
    AlwaysInStep(t, m);
    AlwaysCoherent(t, m);
    AlwaysClaimed(t, m);
    AlertLatches(st, w, reason, next);
  }

  // ---------------------------------------------------------------- how much is on its way

  /** The channel holds two objects per worker, and a page four. */
  ghost predicate Buffered(st: State) {
    && |st.queue| <= 2 * st.width && 0 < st.width
    && (st.feed.Offering? ==> 0 < |st.feed.batch| <= 4 * st.width)
  }

  lemma FeedBuffered(st: State, e: FeedEvent, next: State)
    requires FeedStep(st, e) == Some(next) && Buffered(st)
    ensures Buffered(next)
  {
    if e.Claim? && e.ok {
      Keyset.PageIsExact(Claimables(st), st.cursor, 4 * st.width);
    }
  }

  /** A worker leaves the feeder alone, but may take an object off the channel. */
  ghost predicate LeavesFeeder(st: State, next: State) {
    next.feed == st.feed && next.width == st.width && |next.queue| <= |st.queue|
  }

  lemma StartLeaves(st: State, w: nat, e: WorkEvent, next: State)
    requires w < |st.workers| && StartStep(st, w, e) == Some(next)
    ensures LeavesFeeder(st, next)
  {
  }

  lemma WorkLeaves(st: State, w: nat, e: WorkEvent, next: State)
    requires w < |st.workers| && WorkStep(st, w, e) == Some(next)
    ensures LeavesFeeder(st, next)
  {
  }

  lemma DecideLeaves(st: State, w: nat, e: WorkEvent, next: State)
    requires w < |st.workers| && DecideStep(st, w, e) == Some(next)
    ensures LeavesFeeder(st, next)
  {
  }

  lemma HaltLeaves(st: State, w: nat, e: WorkEvent, next: State)
    requires w < |st.workers| && HaltStep(st, w, e) == Some(next)
    ensures LeavesFeeder(st, next)
  {
  }

  lemma WriteLeaves(st: State, w: nat, ok: bool, applied: bool, next: State)
    requires w < |st.workers| && WriteStep(st, w, ok, applied) == Some(next)
    ensures LeavesFeeder(st, next)
  {
  }

  lemma WorkerLeaves(st: State, w: nat, e: WorkEvent, next: State)
    requires w < |st.workers| && WorkerStep(st, w, e) == Some(next)
    ensures LeavesFeeder(st, next)
  {
    if e.Take? || e.Begin? || e.Enter? {
      StartLeaves(st, w, e, next);
    } else if IsWork(e) {
      WorkLeaves(st, w, e, next);
    } else if e.Decide? || e.Stop? {
      DecideLeaves(st, w, e, next);
    } else if e.Write? {
      WriteLeaves(st, w, e.ok, e.applied, next);
    } else {
      HaltLeaves(st, w, e, next);
    }
  }

  lemma StepBuffered(st: State, e: Step, next: State)
    requires Next(st, e) == Some(next) && Buffered(st)
    ensures Buffered(next)
  {
    match e
    case Feeder(f) => FeedBuffered(st, f, next);
    case AtWorker(w, f) => WorkerLeaves(st, w, f, next);
    case _ =>
  }

  /** However the goroutines interleave, at most seven objects per worker are claimed ahead of their deletion. */
  lemma {:induction false} AlwaysBuffered(r: Trace, n: nat)
    requires Ran(r) && n <= |r.steps|
    ensures Buffered(r.states[n])
  {
    if n > 0 {
      AlwaysBuffered(r, n - 1);
      assert Next(r.states[n - 1], r.steps[n - 1]) == Some(r.states[n]);
      StepBuffered(r.states[n - 1], r.steps[n - 1], r.states[n]);
    }
  }

  /** The page that a claim above the cursor is answered with. */
  ghost predicate WholePage(due: set<Oid>, cursor: Oid, limit: nat, page: seq<Oid>) {
    && (page == [] <==> Keyset.Above(due, cursor) == {})
    && |page| <= limit && (|page| < limit ==> Keyset.Elements(page) == Keyset.Above(due, cursor))
  }

  lemma PageIsWhole(due: set<Oid>, cursor: Oid, limit: nat)
    requires 0 < limit
    ensures WholePage(due, cursor, limit, Keyset.Page(due, cursor, limit))
  {
    Keyset.PageIsExact(due, cursor, limit);
  }

  /** An answered claim offers the claimable objects above the cursor, four per worker or all that are left. */
  lemma ClaimIsExact(st: State, next: State)
    requires Next(st, Feeder(Claim(true))) == Some(next) && 0 < st.width
    ensures next == st.(feed := next.feed)
    ensures next.feed == Closed(Exhausted) || next.feed.Offering?
    ensures WholePage(Claimables(st), st.cursor, 4 * st.width, if next.feed.Offering? then next.feed.batch else [])
  {
    PageIsWhole(Claimables(st), st.cursor, 4 * st.width);
  }

  /** Pages claimed between two moments. */
  function Claims(steps: seq<Step>, i: nat, n: nat): nat
    requires i <= n <= |steps|
  {
    if i == n then 0
    else Claims(steps, i, n - 1) + if steps[n - 1].Feeder? && steps[n - 1].feed.Claim? then 1 else 0
  }

  lemma FeederWindsDown(st: State, e: Step, next: State)
    requires Next(st, e) == Some(next) && (st.stopped || st.cancelled)
    ensures next.feed == Claiming ==> st.feed == Claiming
    ensures e.Feeder? && e.feed.Claim? ==> st.feed == Claiming && next.feed != Claiming
  {
    match e
    case AtWorker(w, f) => WorkerLeaves(st, w, f, next);
    case _ =>
  }

  lemma EndedStays(st: State, e: Step, next: State)
    requires Next(st, e) == Some(next) && (st.stopped || st.cancelled)
    ensures next.stopped || next.cancelled
  {
  }

  /** Once admission has stopped or everything is cancelled, at most the page being claimed is still claimed. */
  lemma {:induction false} FewClaims(r: Trace, i: nat, n: nat)
    requires Ran(r) && i <= n <= |r.steps| && (r.states[i].stopped || r.states[i].cancelled)
    ensures r.states[n].stopped || r.states[n].cancelled
    ensures Claims(r.steps, i, n) + (if r.states[n].feed == Claiming then 1 else 0) <= 1
    decreases n
  {
    if i < n {
      FewClaims(r, i, n - 1);
      assert Next(r.states[n - 1], r.steps[n - 1]) == Some(r.states[n]);
      FeederWindsDown(r.states[n - 1], r.steps[n - 1], r.states[n]);
      EndedStays(r.states[n - 1], r.steps[n - 1], r.states[n]);
    }
  }

  // ---------------------------------------------------------------- the life of an object

  /** What a worker may do next with the object it holds. */
  predicate Follows(now: Worker, next: Worker) {
    match now
    case Waiting => next.Taken?
    case Taken(o) => next == Waiting || next == Started(o)
    case Started(o) => next == Waiting || next == Working(o, false, 0)
    case Working(o, armed, seen) =>
      || (!armed && seen == 0 && next == Working(o, true, 0))
      || (armed && next == Working(o, false, seen))
      || (!armed && seen < 2 && next == Working(o, false, seen + 1))
      || (!armed && next.Returned? && next.oid == o && (next.outcome == Success ==> 2 <= seen))
    case Returned(o, Success) => next == Writing(o, Success)
    case Returned(o, Ordinary) => next == Waiting || next == Stopping(o)
    case Returned(o, Safety) => next == Halting(o)
    case Stopping(o) => next == Writing(o, Ordinary)
    case Halting(o) => next == Alerting(o) || next == Writing(o, Safety)
    case Alerting(o) => next == Writing(o, Safety)
    case Writing(o, outcome) => next == Waiting || (outcome == Success && next == Unsaved(o))
    case Unsaved(o) => next == Waiting
  }

  /** The worker has gone on by one phase, and no other has moved. */
  ghost predicate Went(st: State, w: nat, next: State)
    requires w < |st.workers|
  {
    && |next.workers| == |st.workers| && Follows(st.workers[w], next.workers[w])
    && (forall v :: 0 <= v < |st.workers| && v != w ==> next.workers[v] == st.workers[v])
  }

  lemma StartGoes(st: State, w: nat, e: WorkEvent, next: State)
    requires w < |st.workers| && StartStep(st, w, e) == Some(next)
    ensures Went(st, w, next)
  {
  }

  lemma WorkGoes(st: State, w: nat, e: WorkEvent, next: State)
    requires w < |st.workers| && WorkStep(st, w, e) == Some(next)
    ensures Went(st, w, next)
  {
  }

  lemma DecideGoes(st: State, w: nat, e: WorkEvent, next: State)
    requires w < |st.workers| && DecideStep(st, w, e) == Some(next)
    ensures Went(st, w, next)
  {
  }

  lemma HaltGoes(st: State, w: nat, e: WorkEvent, next: State)
    requires w < |st.workers| && HaltStep(st, w, e) == Some(next)
    ensures Went(st, w, next)
  {
  }

  lemma WriteGoes(st: State, w: nat, ok: bool, applied: bool, next: State)
    requires w < |st.workers| && WriteStep(st, w, ok, applied) == Some(next)
    ensures Went(st, w, next)
  {
  }

  /**
   In every interleaving a step of one worker takes its object one phase further and touches no
   other worker: a success needs both re-checks, a failure first stops admission, a violation
   first raises the halt, and only then is a result written.
   */
  lemma EveryObjectGoesThrough(st: State, w: nat, e: WorkEvent, next: State)
    requires w < |st.workers| && Next(st, AtWorker(w, e)) == Some(next)
    ensures Went(st, w, next)
  {
    if e.Take? || e.Begin? || e.Enter? {
      StartGoes(st, w, e, next);
    } else if IsWork(e) {
      WorkGoes(st, w, e, next);
    } else if e.Decide? || e.Stop? {
      DecideGoes(st, w, e, next);
    } else if e.Write? {
      WriteGoes(st, w, e.ok, e.applied, next);
    } else {
      HaltGoes(st, w, e, next);
    }
  }

  /** Only a refused claim, a failed object and an unsaved result stop the run. */
  lemma StoppedForAReason(st: State, e: Step, next: State)
    requires Next(st, e) == Some(next) && next.stopped && !st.stopped
    ensures e == Feeder(Claim(false))
            || (e.AtWorker? && e.worker < |st.workers|
                && (st.workers[e.worker].Stopping? || st.workers[e.worker].Unsaved?))
  {
    match e
    case AtWorker(w, f) =>
      if !(f.Decide? || f.Stop?) {
        StopsOnlyThere(st, w, f, next);
      }
    case _ =>
  }

  lemma StopsOnlyThere(st: State, w: nat, e: WorkEvent, next: State)
    requires w < |st.workers| && WorkerStep(st, w, e) == Some(next) && !e.Decide? && !e.Stop?
    ensures next.stopped == st.stopped
  {
  }

  /** What the program is told about a result decides whether it counts as recorded. */
  lemma WriteIsNoted(st: State, w: nat, ok: bool, applied: bool, next: State)
    requires w < |st.workers| && st.workers[w].Writing? && Next(st, AtWorker(w, Write(ok, applied))) == Some(next)
    ensures var o := st.workers[w].oid;
            && (o in next.unrecorded <==> !ok)
            && (forall p :: p != o ==> (p in next.unrecorded <==> p in st.unrecorded))
            && (next.workers[w] == Unsaved(o) <==> !ok && st.workers[w].outcome == Success)
  {
  }

  /** The worker is on its way to record an ordinary failure of the object. */
  predicate Failing(worker: Worker, o: Oid) {
    worker == Stopping(o) || worker == Writing(o, Ordinary)
  }

  /** An attempt that failed after a cancellation is abandoned; before one it goes on to the stop. */
  lemma CutShortIsAbandoned(st: State, w: nat, o: Oid, next: State)
    requires w < |st.workers| && st.workers[w] == Returned(o, Ordinary) && Next(st, AtWorker(w, Decide)) == Some(next)
    ensures if st.cancelled then next.workers[w] == Waiting && next.past.writes == st.past.writes
            else next.workers[w] == Stopping(o)
  {
  }

  lemma FailingFrom(st: State, e: Step, next: State, w: nat, o: Oid)
    requires Next(st, e) == Some(next) && w < |st.workers| == |next.workers| && Failing(next.workers[w], o)
    ensures Failing(st.workers[w], o)
            || (st.workers[w] == Returned(o, Ordinary) && e == AtWorker(w, Decide) && !st.cancelled)
  {
    match e
    case Feeder(f) => FeedMoves(st, f, next);
    case AtWorker(v, f) =>
      EveryObjectGoesThrough(st, v, f, next);
      if v == w && st.workers[w] == Returned(o, Ordinary) {
        OnlyDecides(st, w, f, o, next);
      }
    case _ =>
  }

  lemma OnlyDecides(st: State, w: nat, e: WorkEvent, o: Oid, next: State)
    requires w < |st.workers| && st.workers[w] == Returned(o, Ordinary) && Next(st, AtWorker(w, e)) == Some(next)
    ensures e == Decide
  {
  }

  lemma SameWorkers(st: State, e: Step, next: State)
    requires Next(st, e) == Some(next)
    ensures |next.workers| == |st.workers|
  {
    match e
    case Feeder(f) => FeedMoves(st, f, next);
    case AtWorker(v, f) => EveryObjectGoesThrough(st, v, f, next);
    case _ =>
  }

  /**
   In every interleaving a failure is only recorded if its attempt ended before the cancellation:
   what a halt or the operator cut short is left without a result.
   */
  lemma {:induction false} FailureWasDecided(r: Trace, n: nat, w: nat, o: Oid) returns (m: nat)
    requires Ran(r) && n <= |r.steps| && w < |r.states[n].workers| && Failing(r.states[n].workers[w], o)
    ensures m < n && r.steps[m] == AtWorker(w, Decide) && !r.states[m].cancelled
    ensures w < |r.states[m].workers| && r.states[m].workers[w] == Returned(o, Ordinary)
    decreases n
  {
    if n == 0 {
      assert false;
    } else {
      var st, e, next := r.states[n - 1], r.steps[n - 1], r.states[n];
      assert Next(st, e) == Some(next);
      SameWorkers(st, e, next);
      FailingFrom(st, e, next, w, o);
      m := n - 1;
      if Failing(st.workers[w], o) {
        m := FailureWasDecided(r, n - 1, w, o);
      }
    }
  }
}
