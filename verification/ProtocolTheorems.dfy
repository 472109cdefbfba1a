/**
 What the concurrent run guarantees under every interleaving: it stays within the tool's state
 machine, lets no object through twice, stops and halts as promised, and reports success only
 when every object it could claim has a recorded completion.
 */
module ProtocolTheorems {
  import opened Wrappers
  import opened Ledger
  import opened LedgerInvariants
  import opened LedgerTheorems
  import opened Storage
  import opened System
  import opened SystemInvariants
  import opened Protocol
  import opened ProtocolInvariants
  import Keyset

  /** What holds at first and is kept by every step holds at the end. */
  lemma {:induction false} Stepwise(holds: seq<bool>)
    requires holds != [] && holds[0] && forall i :: 0 <= i < |holds| - 1 && holds[i] ==> holds[i + 1]
    ensures holds[|holds| - 1]
  {
    if 1 < |holds| {
      Stepwise(holds[..|holds| - 1]);
    }
  }

  // ---------------------------------------------------------------- a run of the state machine

  /** The step is an event of the tool's state machine, or touches neither tables nor store. */
  ghost predicate Simulated(s: Sys, next: Sys) {
    next == s || exists e: Event :: (e.Purger? || e.WriteBack?) && Apply(s, e) == Some(next)
  }

  lemma PurgedIsSimulated(s: Sys, e: PurgeEvent)
    ensures Simulated(s, Purged(s, e))
  {
    if PurgeStep(s, e).Some? {
      assert Apply(s, Purger(e)) == Some(Purged(s, e));
    }
  }

  lemma SupplyIsSimulated(s: Sys, key: string, size: nat)
    requires key !in s.store
    ensures Simulated(s, s.(store := s.store[key := size]))
  {
    assert Apply(s, WriteBack(key, size)) == Some(s.(store := s.store[key := size]));
  }

  lemma DropIsSimulated(s: Sys, o: Oid)
    ensures Simulated(s, WithoutWork(s, o))
  {
    if s.session.Purging? {
      if o in s.session.work {
        assert Apply(s, Purger(Drop(o))) == Some(WithoutWork(s, o));
      } else {
        assert s.session.work - {o} == s.session.work;
      }
    }
  }

  lemma StartSimulated(st: State, w: nat, e: WorkEvent)
    requires w < |st.workers| && StartStep(st, w, e).Some?
    ensures Simulated(st.sys, StartStep(st, w, e).value.sys)
  {
    if !st.workers[w].Waiting? {
      PurgedIsSimulated(st.sys, Admit(st.workers[w].oid));
      DropIsSimulated(st.sys, st.workers[w].oid);
    }
  }

  lemma WorkSimulated(st: State, w: nat, e: WorkEvent)
    requires w < |st.workers| && WorkStep(st, w, e).Some?
    ensures Simulated(st.sys, WorkStep(st, w, e).value.sys)
  {
    if e.Fire? {
      PurgedIsSimulated(st.sys, Remove(st.workers[w].oid, e.confirmed, e.silent));
    }
  }

  lemma DecideSimulated(st: State, w: nat, e: WorkEvent)
    requires w < |st.workers| && DecideStep(st, w, e).Some?
    ensures Simulated(st.sys, DecideStep(st, w, e).value.sys)
  {
    DropIsSimulated(st.sys, st.workers[w].oid);
  }

  lemma HaltSimulated(st: State, w: nat, e: WorkEvent)
    requires w < |st.workers| && HaltStep(st, w, e).Some?
    ensures Simulated(st.sys, HaltStep(st, w, e).value.sys)
  {
    if e.Alert? {
      PurgedIsSimulated(st.sys, HoldOid(st.workers[w].oid, e.reason));
    }
  }

  lemma WriteSimulated(st: State, w: nat, ok: bool, applied: bool)
    requires w < |st.workers| && WriteStep(st, w, ok, applied).Some?
    ensures Simulated(st.sys, WriteStep(st, w, ok, applied).value.sys)
  {
    var Writing(o, outcome) := st.workers[w];
    PurgedIsSimulated(st.sys, if outcome == Success then Finish(o) else GiveUp(o));
    DropIsSimulated(st.sys, o);
  }

  lemma StepSimulated(st: State, e: Step, next: State)
    requires Next(st, e) == Some(next)
    ensures Simulated(st.sys, next.sys)
  {
    match e
    case Interrupt =>
    case Others(key, size) => SupplyIsSimulated(st.sys, key, size);
    case Feeder(f) => FeedLeavesWorkers(st, f);
    case AtWorker(w, f) =>
      if f.Take? || f.Begin? || f.Enter? {
        StartSimulated(st, w, f);
      } else if IsWork(f) {
        WorkSimulated(st, w, f);
      } else if f.Decide? || f.Stop? {
        DecideSimulated(st, w, f);
      } else if f.Write? {
        WriteSimulated(st, w, f.ok, f.applied);
      } else {
        HaltSimulated(st, w, f);
      }
  }

  lemma Extended(r: Run, next: Sys) returns (longer: Run)
    requires Happened(r) && Simulated(r.states[|r.events|], next)
    ensures Happened(longer) && r.events <= longer.events && longer.states[|longer.events|] == next
  {
    var s := r.states[|r.events|];
    if next == s {
      longer := r;
    } else {
      var e: Event :| (e.Purger? || e.WriteBack?) && Apply(s, e) == Some(next);
      longer := Run(r.states + [next], r.events + [e]);
    }
  }

  /**
   Any interleaving that starts where a history of the tool has led continues that history: what
   holds of all histories holds of concurrent runs.
   */
  lemma {:induction false} RunIsHistory(r: Run, t: Trace, n: nat) returns (longer: Run)
    requires Happened(r) && Ran(t) && n <= |t.steps| && r.states[|r.events|] == t.states[0].sys
    ensures Happened(longer) && r.events <= longer.events && longer.states[|longer.events|] == t.states[n].sys
  {
    if n == 0 {
      longer := r;
    } else {
      var shorter := RunIsHistory(r, t, n - 1);
      StepSimulated(t.states[n - 1], t.steps[n - 1], t.states[n]);
      longer := Extended(shorter, t.states[n].sys);
    }
  }

  // ---------------------------------------------------------------- all interleavings

  ghost predicate Coherent(st: State) {
    Order(st) && Core(st.workers, st.past) && Flags(st) && Alarm(st) && Late(st) && Marks(st)
  }

  lemma {:induction false} NoneArmed(ws: seq<Worker>)
    requires forall w :: 0 <= w < |ws| ==> ws[w] == Waiting
    ensures Armed(ws) == 0
  {
    if ws != [] {
      NoneArmed(ws[..|ws| - 1]);
    }
  }

  lemma StartsCoherent(st: State)
    requires Starts(st)
    ensures Coherent(st)
  {
    NoneArmed(st.workers);
  }

  lemma StepCoherent(st: State, e: Step, next: State)
    requires Coherent(st) && Next(st, e) == Some(next)
    ensures Coherent(next)
  {
    OrderStays(st, e, next);
    CoreKept(st, e, next);
    FlagsKept(st, e, next);
    AlarmKept(st, e, next);
    LateKept(st, e, next);
    MarksKept(st, e, next);
  }

  lemma CoherentNext(t: Trace, n: nat)
    requires Ran(t) && n < |t.steps| && Coherent(t.states[n])
    ensures Coherent(t.states[n + 1])
  {
    StepCoherent(t.states[n], t.steps[n], t.states[n + 1]);
  }

  lemma AlwaysCoherent(t: Trace, n: nat)
    requires Ran(t) && n <= |t.steps|
    ensures Coherent(t.states[n])
  {
    var holds := seq(n + 1, i requires 0 <= i <= n => Coherent(t.states[i]));
    StartsCoherent(t.states[0]);
    forall i | 0 <= i < n && holds[i] ensures holds[i + 1] {
      CoherentNext(t, i);
    }
    Stepwise(holds);
  }

  /** No object is let through twice, whatever the interleaving. */
  lemma AdmittedOnce(t: Trace, n: nat)
    requires Ran(t) && n <= |t.steps|
    ensures Distinct(t.states[n].past.admitted)
  {
    AlwaysCoherent(t, n);
  }

  lemma StoppedForGood(st: State, e: Step, next: State)
    requires Next(st, e) == Some(next) && (st.stopped || st.cancelled)
    ensures (next.stopped || next.cancelled) && next.past.admitted == st.past.admitted
  {
    match e
    case Interrupt =>
    case Others(_, _) =>
    case Feeder(f) => FeedLeavesWorkers(st, f);
    case AtWorker(w, f) => WorkerStops(st, w, f);
  }

  lemma WorkerStops(st: State, w: nat, e: WorkEvent)
    requires w < |st.workers| && WorkerStep(st, w, e).Some? && (st.stopped || st.cancelled)
    ensures WorkerStep(st, w, e).value.stopped || WorkerStep(st, w, e).value.cancelled
    ensures WorkerStep(st, w, e).value.past.admitted == st.past.admitted
  {
  }

  /** From the moment of a stop, a halt or a cancellation, the set of objects let through never grows. */
  lemma {:induction false} StopEndsAdmission(t: Trace, i: nat, j: nat)
    requires Ran(t) && i <= j <= |t.steps| && (t.states[i].stopped || t.states[i].cancelled)
    ensures t.states[j].stopped || t.states[j].cancelled
    ensures t.states[j].past.admitted == t.states[i].past.admitted
    decreases j
  {
    if i < j {
      StopEndsAdmission(t, i, j - 1);
      StoppedForGood(t.states[j - 1], t.steps[j - 1], t.states[j]);
    }
  }

  /** When an uncancelled run is over, every object let through had exactly one result write. */
  lemma OneResultEach(t: Trace, n: nat)
    requires Ran(t) && n <= |t.steps| && Over(t.states[n]) && !t.states[n].cancelled
    ensures forall o :: t.states[n].past.writes[o] == if o in t.states[n].past.admitted then 1 else 0
  {
    AlwaysCoherent(t, n);
    var st := t.states[n];
    forall o ensures st.past.writes[o] == if o in st.past.admitted then 1 else 0 {
      assert !SomeCarries(st.workers, o);
    }
  }

  /** The alarm is raised at most once, and exactly once in a halted run that is over. */
  lemma OneAlarm(t: Trace, n: nat)
    requires Ran(t) && n <= |t.steps|
    ensures t.states[n].past.alerts <= 1
    ensures Over(t.states[n]) ==> (t.states[n].past.alerts == 1 <==> t.states[n].halt != NotHalted)
  {
    AlwaysCoherent(t, n);
  }

  lemma WidthKept(st: State, e: Step, next: State)
    requires Next(st, e) == Some(next)
    ensures |next.workers| == |st.workers| && next.width == st.width
  {
    match e
    case Interrupt =>
    case Others(_, _) =>
    case Feeder(f) => FeedLeavesWorkers(st, f);
    case AtWorker(w, f) => WorkerWidth(st, w, f);
  }

  lemma WorkerWidth(st: State, w: nat, e: WorkEvent)
    requires w < |st.workers| && WorkerStep(st, w, e).Some?
    ensures |WorkerStep(st, w, e).value.workers| == |st.workers| && WorkerStep(st, w, e).value.width == st.width
  {
    if IsWork(e) {
      WorkEffect(st, w, e, WorkerStep(st, w, e).value);
    } else if e.RaiseHalt? || e.Alert? {
      HaltEffect(st, w, e, WorkerStep(st, w, e).value);
    } else {
      QuietEffect(st, w, e, WorkerStep(st, w, e).value);
    }
  }

  lemma {:induction false} SameWidth(t: Trace, n: nat)
    requires Ran(t) && n <= |t.steps|
    ensures |t.states[n].workers| == t.states[n].width == t.states[0].width
  {
    if n > 0 {
      SameWidth(t, n - 1);
      WidthKept(t.states[n - 1], t.steps[n - 1], t.states[n]);
    }
  }

  /** After the halt, at most one delete request per other worker still goes out. */
  lemma FewLateDeletes(t: Trace, n: nat)
    requires Ran(t) && n <= |t.steps|
    ensures t.states[n].past.late <= t.states[0].width - 1
  {
    AlwaysCoherent(t, n);
    SameWidth(t, n);
  }

  // ---------------------------------------------------------------- no event is refused

  /** The command's attempts in progress are the objects in the workers' hands. */
  ghost predicate InStep(st: State) {
    && st.sys.session.Purging? && (st.sys.session.halted ==> st.halt == Latched)
    && forall o :: o in st.sys.session.work <==> SomeCarries(st.workers, o)
  }

  lemma CarriesUpdate(ws: seq<Worker>, w: nat, p: Worker, o: Oid)
    requires Apart(ws) && w < |ws|
    ensures SomeCarries(ws[w := p], o) <==> (SomeCarries(ws, o) && !Carries(ws[w], o)) || Carries(p, o)
  {
    var later := ws[w := p];
    if v :| 0 <= v < |later| && Carries(later[v], o) {
      if v != w {
        assert Carries(ws[v], o) && Holding(ws[v], o);
      }
    }
    if SomeCarries(ws, o) && !Carries(ws[w], o) {
      StillCarries(ws, w, p, o);
    }
    if Carries(p, o) {
      assert Carries(later[w], o);
    }
  }

  /** The effect of one worker's step on the attempts in progress matches its effect on its hands. */
  lemma HandsMatch(st: State, next: State, w: nat)
    requires InStep(st) && Apart(st.workers) && w < |st.workers| == |next.workers|
    requires next.workers == st.workers[w := next.workers[w]]
    requires next.sys.session.Purging? && (next.sys.session.halted ==> next.halt == Latched)
    requires forall o :: o in next.sys.session.work <==>
                           (o in st.sys.session.work && !Carries(st.workers[w], o)) || Carries(next.workers[w], o)
    ensures InStep(next)
  {
    forall o ensures o in next.sys.session.work <==> SomeCarries(next.workers, o) {
      CarriesUpdate(st.workers, w, next.workers[w], o);
    }
  }

  lemma NotYetPending(st: State, w: nat, o: Oid)
    requires InStep(st) && Apart(st.workers) && w < |st.workers| && st.workers[w] == Taken(o)
    ensures o !in st.sys.session.work
  {
    OnlyHolder(st.workers, w, o);
    assert !SomeCarries(st.workers, o);
  }

  /** Handed out or about to be, and not yet let through. */
  predicate Queued(st: State, o: Oid) {
    o in st.queue || (st.feed.Offering? && o in st.feed.batch) || SomeTaken(st.workers, o)
  }

  /** What is in line can still be claimed: nobody works on it before it is let through. */
  ghost predicate InLine(st: State) {
    st.sys.session.Purging? && forall o :: Queued(st, o) ==> Claimable(st.sys.db, st.sys.session.task, o)
  }

  /** Fewer objects in line, over tables that make no difference to them. */
  lemma LineShrinks(st: State, next: State)
    requires InLine(st) && (forall o :: Queued(next, o) ==> Queued(st, o))
    requires next.sys.session.Purging? && next.sys.session.task == st.sys.session.task
    requires forall o :: Queued(next, o) && Claimable(st.sys.db, st.sys.session.task, o) ==>
                           Claimable(next.sys.db, st.sys.session.task, o)
    ensures InLine(next)
  {
  }

  lemma TakenUpdate(ws: seq<Worker>, w: nat, p: Worker, o: Oid)
    requires w < |ws| && SomeTaken(ws[w := p], o)
    ensures SomeTaken(ws, o) || p == Taken(o)
  {
    var v :| 0 <= v < |ws| && ws[w := p][v] == Taken(o);
    assert v != w ==> ws[v] == Taken(o);
  }

  /** A worker's step other than receiving leaves nobody new in line. */
  lemma NobodyNew(st: State, next: State, w: nat)
    requires w < |st.workers| == |next.workers| && next.workers == st.workers[w := next.workers[w]]
    requires !next.workers[w].Taken? && FeedAlone(st, next)
    ensures forall o :: Queued(next, o) ==> Queued(st, o)
  {
    forall o | Queued(next, o) ensures Queued(st, o) {
      if SomeTaken(next.workers, o) {
        TakenUpdate(st.workers, w, next.workers[w], o);
      }
    }
  }

  lemma ClaimLine(st: State, ok: bool)
    requires InLine(st) && FeedStep(st, Claim(ok)).Some?
    ensures InLine(FeedStep(st, Claim(ok)).value)
  {
    var page := Keyset.Page(Claimables(st), st.cursor, 4 * st.width);
    ClaimablesAre(st.sys.db, st.sys.session.task);
    forall o | o in page ensures Claimable(st.sys.db, st.sys.session.task, o) {
      var i :| 0 <= i < |page| && page[i] == o;
      assert page[i] in Claimables(st);
    }
  }

  lemma FeedLine(st: State, e: FeedEvent)
    requires InLine(st) && FeedStep(st, e).Some?
    ensures InLine(FeedStep(st, e).value)
  {
    match e
    case Claim(ok) => ClaimLine(st, ok);
    case Send =>
      var batch := st.feed.batch;
      assert batch[0] in batch;
      assert forall o :: o in batch[1..] ==> o in batch;
      LineShrinks(st, FeedStep(st, e).value);
    case _ => LineShrinks(st, FeedStep(st, e).value);
  }

  lemma TakeLine(st: State, w: nat)
    requires InLine(st) && w < |st.workers| && StartStep(st, w, Take).Some?
    ensures InLine(StartStep(st, w, Take).value)
  {
    var next := StartStep(st, w, Take).value;
    assert st.queue[0] in st.queue && forall o :: o in st.queue[1..] ==> o in st.queue;
    forall o | Queued(next, o) ensures Queued(st, o) {
      if SomeTaken(next.workers, o) {
        TakenUpdate(st.workers, w, Taken(st.queue[0]), o);
      }
    }
    LineShrinks(st, next);
  }

  /** The object whose result is written is not in line. */
  lemma WrittenIsNotQueued(st: State, w: nat)
    requires Order(st) && Core(st.workers, st.past) && w < |st.workers| && InHand(st.workers[w])
    ensures !Queued(st, st.workers[w].oid)
  {
    var o := st.workers[w].oid;
    OnlyHolder(st.workers, w, o);
    assert o in st.past.popped;
  }

  lemma OthersStayClaimable(s: Sys, e: PurgeEvent, o: Oid)
    requires s.session.Purging? && PurgeStep(s, e).Some? && (e.Finish? || e.GiveUp?) && e.oid != o
    requires Claimable(s.db, s.session.task, o)
    ensures Claimable(PurgeStep(s, e).value.db, s.session.task, o)
  {
  }

  lemma WriteLine(st: State, w: nat, ok: bool, applied: bool, next: State)
    requires InLine(st) && Order(st) && Core(st.workers, st.past) && w < |st.workers|
    requires WriteStep(st, w, ok, applied) == Some(next)
    ensures InLine(next)
  {
    var Writing(o, outcome) := st.workers[w];
    var e := if outcome == Success then Finish(o) else GiveUp(o);
    NobodyNew(st, next, w);
    WrittenIsNotQueued(st, w);
    forall x | Queued(next, x) && Claimable(st.sys.db, st.sys.session.task, x)
      ensures Claimable(next.sys.db, st.sys.session.task, x)
    {
      if applied && PurgeStep(st.sys, e).Some? {
        OthersStayClaimable(st.sys, e, x);
      }
    }
    LineShrinks(st, next);
  }

  lemma AlertLine(st: State, w: nat, e: WorkEvent, next: State)
    requires InLine(st) && w < |st.workers| && e.Alert? && HaltStep(st, w, e) == Some(next)
    ensures InLine(next)
  {
    var o := st.workers[w].oid;
    if e.ok && PurgeStep(st.sys, HoldOid(o, e.reason)).Some? {
      HoldEffect(st.sys, o, e.reason);
    }
    NobodyNew(st, next, w);
    LineShrinks(st, next);
  }

  lemma WorkerLine(st: State, w: nat, e: WorkEvent, next: State)
    requires InLine(st) && Order(st) && Core(st.workers, st.past) && w < |st.workers|
    requires WorkerStep(st, w, e) == Some(next)
    ensures InLine(next)
  {
    if e.Take? {
      TakeLine(st, w);
    } else if e.Write? {
      WriteLine(st, w, e.ok, e.applied, next);
    } else if e.Alert? {
      AlertLine(st, w, e, next);
    } else {
      WorkerTables(st, w, e, next);
      WorkerLeavesFeed(st, w, e);
      WorkerMoves(st, w, e, next);
      NobodyNew(st, next, w);
      LineShrinks(st, next);
    }
  }

  lemma WorkerMoves(st: State, w: nat, e: WorkEvent, next: State)
    requires w < |st.workers| && WorkerStep(st, w, e) == Some(next) && !e.Take?
    ensures |next.workers| == |st.workers| && next.workers == st.workers[w := next.workers[w]]
    ensures !next.workers[w].Taken?
  {
    if e.Begin? || e.Enter? {
      StartMoves(st, w, e, next);
    } else if IsWork(e) {
      WorkEffect(st, w, e, next);
    } else if e.Decide? || e.Stop? {
      DecideEffect(st, w, e, next);
    } else if !e.Write? {
      HaltEffect(st, w, e, next);
    }
  }

  lemma StartMoves(st: State, w: nat, e: WorkEvent, next: State)
    requires w < |st.workers| && StartStep(st, w, e) == Some(next) && !e.Take?
    ensures |next.workers| == |st.workers| && next.workers == st.workers[w := next.workers[w]]
    ensures !next.workers[w].Taken?
  {
  }

  lemma LineKept(st: State, e: Step, next: State)
    requires InLine(st) && Order(st) && Core(st.workers, st.past) && Next(st, e) == Some(next)
    ensures InLine(next)
  {
    match e
    case Interrupt => LineShrinks(st, next);
    case Others(_, _) => LineShrinks(st, next);
    case Feeder(f) => FeedLine(st, f);
    case AtWorker(w, f) => WorkerLine(st, w, f, next);
  }

  lemma HandIsWork(st: State, w: nat)
    requires InStep(st) && w < |st.workers| && InHand(st.workers[w])
    ensures st.workers[w].oid in st.sys.session.work
  {
    assert Carries(st.workers[w], st.workers[w].oid);
  }

  /** An object let through by the start lock is admitted by the state machine as well. */
  lemma AdmitHappens(st: State, w: nat, o: Oid, next: State)
    requires InStep(st) && InLine(st) && Order(st) && Core(st.workers, st.past) && Alarm(st)
    requires w < |st.workers| && st.workers[w] == Taken(o)
    requires StartStep(st, w, Begin) == Some(next) && next.workers[w] == Started(o)
    ensures PurgeStep(st.sys, Admit(o)) == Some(next.sys)
  {
    NotYetPending(st, w, o);
    assert SomeTaken(st.workers, o) && Queued(st, o);
    assert o in st.past.popped;
  }

  lemma StartInStep(st: State, w: nat, e: WorkEvent, next: State)
    requires InStep(st) && InLine(st) && Order(st) && Core(st.workers, st.past) && Alarm(st)
    requires w < |st.workers| && StartStep(st, w, e) == Some(next)
    ensures InStep(next)
  {
    if e.Begin? && next.workers[w].Started? {
      AdmitHappens(st, w, st.workers[w].oid, next);
    }
    HandsMatch(st, next, w);
  }

  lemma RemoveKeepsWork(s: Sys, o: Oid, confirmed: set<string>, silent: set<string>)
    requires PurgeStep(s, Remove(o, confirmed, silent)).Some?
    ensures var next := PurgeStep(s, Remove(o, confirmed, silent)).value;
            && next.session.Purging? && next.session.halted == s.session.halted
            && next.session.work.Keys == s.session.work.Keys
  {
  }

  lemma WorkInStep(st: State, w: nat, e: WorkEvent, next: State)
    requires InStep(st) && Apart(st.workers) && w < |st.workers| && WorkStep(st, w, e) == Some(next)
    ensures InStep(next)
  {
    WorkEffect(st, w, e, next);
    HandIsWork(st, w);
    if e.Fire? {
      RemoveKeepsWork(st.sys, st.workers[w].oid, e.confirmed, e.silent);
    }
    SameWork(st, next, w);
  }

  lemma SameWork(st: State, next: State, w: nat)
    requires InStep(st) && Apart(st.workers) && w < |st.workers| == |next.workers|
    requires next.workers == st.workers[w := next.workers[w]]
    requires InHand(st.workers[w]) && Carries(next.workers[w], st.workers[w].oid)
    requires next.sys.session.Purging? && (next.sys.session.halted ==> next.halt == Latched)
    requires next.sys.session.work.Keys == st.sys.session.work.Keys
    ensures InStep(next)
  {
    HandIsWork(st, w);
    HandsMatch(st, next, w);
  }

  lemma DecideInStep(st: State, w: nat, e: WorkEvent, next: State)
    requires InStep(st) && Apart(st.workers) && w < |st.workers| && DecideStep(st, w, e) == Some(next)
    ensures InStep(next)
  {
    DecideEffect(st, w, e, next);
    if InHand(st.workers[w]) {
      HandIsWork(st, w);
    }
    HandsMatch(st, next, w);
  }

  lemma HoldKeepsWork(s: Sys, o: Oid, reason: string)
    requires PurgeStep(s, HoldOid(o, reason)).Some?
    ensures var next := PurgeStep(s, HoldOid(o, reason)).value;
            next.session.Purging? && next.session.work == s.session.work
  {
  }

  lemma HaltInStep(st: State, w: nat, e: WorkEvent, next: State)
    requires InStep(st) && Apart(st.workers) && Alarm(st) && w < |st.workers| && HaltStep(st, w, e) == Some(next)
    ensures InStep(next)
  {
    HaltEffect(st, w, e, next);
    if e.Alert? && PurgeStep(st.sys, HoldOid(st.workers[w].oid, e.reason)).Some? {
      HoldKeepsWork(st.sys, st.workers[w].oid, e.reason);
    }
    SameWork(st, next, w);
  }

  lemma WriteInStep(st: State, w: nat, ok: bool, applied: bool, next: State)
    requires InStep(st) && Apart(st.workers) && w < |st.workers| && WriteStep(st, w, ok, applied) == Some(next)
    ensures InStep(next)
  {
    HandIsWork(st, w);
    HandsMatch(st, next, w);
  }

  lemma StepInStep(st: State, e: Step, next: State)
    requires InStep(st) && InLine(st) && Coherent(st) && Next(st, e) == Some(next)
    ensures InStep(next)
  {
    match e
    case Interrupt =>
    case Others(_, _) =>
    case Feeder(f) => FeedLeavesWorkers(st, f);
    case AtWorker(w, f) => WorkerInStep(st, w, f, next);
  }

  lemma WorkerInStep(st: State, w: nat, e: WorkEvent, next: State)
    requires InStep(st) && InLine(st) && Coherent(st) && w < |st.workers| && WorkerStep(st, w, e) == Some(next)
    ensures InStep(next)
  {
    if e.Take? || e.Begin? || e.Enter? {
      StartInStep(st, w, e, next);
    } else if IsWork(e) {
      WorkInStep(st, w, e, next);
    } else if e.Decide? || e.Stop? {
      DecideInStep(st, w, e, next);
    } else if e.Write? {
      WriteInStep(st, w, e.ok, e.applied, next);
    } else {
      HaltInStep(st, w, e, next);
    }
  }

  lemma StartsInStep(st: State)
    requires Starts(st)
    ensures InStep(st)
  {
  }

  lemma LineNext(t: Trace, n: nat)
    requires Ran(t) && n < |t.steps| && InLine(t.states[n])
    ensures InLine(t.states[n + 1])
  {
    AlwaysCoherent(t, n);
    LineKept(t.states[n], t.steps[n], t.states[n + 1]);
  }

  /** In every interleaving, whatever is in line can still be claimed. */
  lemma AlwaysInLine(t: Trace, n: nat)
    requires Ran(t) && n <= |t.steps|
    ensures InLine(t.states[n])
  {
    var holds := seq(n + 1, i requires 0 <= i <= n => InLine(t.states[i]));
    forall i | 0 <= i < n && holds[i] ensures holds[i + 1] {
      LineNext(t, i);
    }
    Stepwise(holds);
  }

  lemma InStepNext(t: Trace, n: nat)
    requires Ran(t) && n < |t.steps| && InStep(t.states[n])
    ensures InStep(t.states[n + 1])
  {
    AlwaysCoherent(t, n);
    AlwaysInLine(t, n);
    StepInStep(t.states[n], t.steps[n], t.states[n + 1]);
  }

  /** In every interleaving, the machine's attempts in progress are exactly the objects being worked on. */
  lemma AlwaysInStep(t: Trace, n: nat)
    requires Ran(t) && n <= |t.steps|
    ensures InStep(t.states[n])
  {
    var holds := seq(n + 1, i requires 0 <= i <= n => InStep(t.states[i]));
    StartsInStep(t.states[0]);
    forall i | 0 <= i < n && holds[i] ensures holds[i + 1] {
      InStepNext(t, i);
    }
    Stepwise(holds);
  }

  // ---------------------------------------------------------------- completeness

  /** How the tables have moved since the start, while nothing has failed. */
  ghost predicate Claimed(st: State, start: Db, t: TaskId) {
    && st.sys.session.Purging? && st.sys.session.task == t
    && (st.failed == 0 ==> ClaimableOids(st.sys.db, t) == ClaimableOids(start, t) - st.past.done)
    && (forall o :: Processed(st.sys.db, o) ==> o in st.past.done || Processed(start, o))
    && (st.past.alerts == 0 ==> st.sys.db.tasks == start.tasks)
  }

  lemma FinishClaims(db: Db, t: TaskId, o: Oid, keys: nat, bytes: nat)
    requires RecordDone(db, t, o, keys, bytes).Ok?
    ensures ClaimableOids(RecordDone(db, t, o, keys, bytes).value, t) == ClaimableOids(db, t) - {o}
    ensures forall p :: Processed(RecordDone(db, t, o, keys, bytes).value, p) ==> p == o || Processed(db, p)
  {
    var after := RecordDone(db, t, o, keys, bytes).value;
    forall p ensures Claimable(after, t, p) <==> Claimable(db, t, p) && p != o {
    }
    ClaimablesAre(db, t);
    ClaimablesAre(after, t);
  }

  lemma ClaimablesAre(db: Db, t: TaskId)
    ensures forall o :: o in ClaimableOids(db, t) <==> Claimable(db, t, o)
  {
    forall o | Claimable(db, t, o) ensures o in ClaimableOids(db, t) {
      assert (t, o) in db.members;
    }
  }

  lemma FinishEffect(s: Sys, o: Oid)
    requires s.session.Purging? && PurgeStep(s, Finish(o)).Some?
    ensures var next := PurgeStep(s, Finish(o)).value; var t := s.session.task;
            && next.session.Purging? && next.session.task == t && next.db.tasks == s.db.tasks
            && ClaimableOids(next.db, t) == ClaimableOids(s.db, t) - {o}
            && forall p :: Processed(next.db, p) ==> p == o || Processed(s.db, p)
  {
    FinishClaims(s.db, s.session.task, o, s.session.work[o].keys, s.session.work[o].bytes);
  }

  lemma GiveUpEffect(s: Sys, o: Oid)
    requires s.session.Purging? && PurgeStep(s, GiveUp(o)).Some?
    ensures var next := PurgeStep(s, GiveUp(o)).value;
            && next.session.Purging? && next.session.task == s.session.task && next.db.tasks == s.db.tasks
            && forall p :: Processed(next.db, p) ==> Processed(s.db, p)
  {
  }

  lemma WriteClaims(st: State, w: nat, ok: bool, applied: bool, start: Db, t: TaskId)
    requires Claimed(st, start, t) && w < |st.workers| && WriteStep(st, w, ok, applied).Some?
    ensures Claimed(WriteStep(st, w, ok, applied).value, start, t)
  {
    var Writing(o, outcome) := st.workers[w];
    if applied && outcome == Success && PurgeStep(st.sys, Finish(o)).Some? {
      FinishEffect(st.sys, o);
    } else if applied && outcome != Success && PurgeStep(st.sys, GiveUp(o)).Some? {
      GiveUpEffect(st.sys, o);
    }
  }

  lemma AlertClaims(st: State, w: nat, e: WorkEvent, start: Db, t: TaskId)
    requires Claimed(st, start, t) && w < |st.workers| && e.Alert? && HaltStep(st, w, e).Some?
    ensures Claimed(HaltStep(st, w, e).value, start, t)
  {
    var o := st.workers[w].oid;
    if e.ok && PurgeStep(st.sys, HoldOid(o, e.reason)).Some? {
      HoldEffect(st.sys, o, e.reason);
    }
  }

  lemma HoldEffect(s: Sys, o: Oid, reason: string)
    requires s.session.Purging? && PurgeStep(s, HoldOid(o, reason)).Some?
    ensures var next := PurgeStep(s, HoldOid(o, reason)).value; var t := s.session.task;
            && next.session.Purging? && next.session.task == t
            && next.db.progress == s.db.progress && next.db.members == s.db.members && next.db.scan == s.db.scan
            && ClaimableOids(next.db, t) == ClaimableOids(s.db, t)
  {
  }

  /** A step that leaves the tables and the counters alone. */
  ghost predicate TablesAlone(st: State, next: State) {
    && next.sys.db == st.sys.db
    && (st.sys.session.Purging? ==>
          next.sys.session.Purging? && next.sys.session.task == st.sys.session.task)
    && next.failed == st.failed && next.past.done == st.past.done && next.past.alerts == st.past.alerts
  }

  lemma StartTables(st: State, w: nat, e: WorkEvent)
    requires w < |st.workers| && StartStep(st, w, e).Some?
    ensures TablesAlone(st, StartStep(st, w, e).value)
  {
  }

  lemma WorkTables(st: State, w: nat, e: WorkEvent)
    requires w < |st.workers| && WorkStep(st, w, e).Some?
    ensures TablesAlone(st, WorkStep(st, w, e).value)
  {
  }

  lemma DecideTables(st: State, w: nat, e: WorkEvent)
    requires w < |st.workers| && DecideStep(st, w, e).Some?
    ensures TablesAlone(st, DecideStep(st, w, e).value)
  {
  }

  lemma HaltTables(st: State, w: nat, e: WorkEvent)
    requires w < |st.workers| && e.RaiseHalt? && HaltStep(st, w, e).Some?
    ensures TablesAlone(st, HaltStep(st, w, e).value)
  {
  }

  lemma FeedTables(st: State, e: FeedEvent)
    requires FeedStep(st, e).Some?
    ensures TablesAlone(st, FeedStep(st, e).value)
  {
  }

  lemma AloneClaimed(st: State, next: State, start: Db, t: TaskId)
    requires Claimed(st, start, t) && TablesAlone(st, next)
    ensures Claimed(next, start, t)
  {
  }

  lemma ClaimedKept(st: State, e: Step, next: State, start: Db, t: TaskId)
    requires Claimed(st, start, t) && Next(st, e) == Some(next)
    ensures Claimed(next, start, t)
  {
    match e
    case Interrupt =>
    case Others(_, _) =>
    case Feeder(f) =>
      FeedTables(st, f);
      AloneClaimed(st, next, start, t);
    case AtWorker(w, f) => WorkerClaimed(st, w, f, next, start, t);
  }

  lemma WorkerClaimed(st: State, w: nat, e: WorkEvent, next: State, start: Db, t: TaskId)
    requires Claimed(st, start, t) && w < |st.workers| && WorkerStep(st, w, e) == Some(next)
    ensures Claimed(next, start, t)
  {
    if e.Write? {
      WriteClaims(st, w, e.ok, e.applied, start, t);
    } else if e.Alert? {
      AlertClaims(st, w, e, start, t);
    } else {
      WorkerTables(st, w, e, next);
      AloneClaimed(st, next, start, t);
    }
  }

  lemma WorkerTables(st: State, w: nat, e: WorkEvent, next: State)
    requires w < |st.workers| && WorkerStep(st, w, e) == Some(next) && !e.Write? && !e.Alert?
    ensures TablesAlone(st, next)
  {
    if e.Take? || e.Begin? || e.Enter? {
      StartTables(st, w, e);
    } else if IsWork(e) {
      WorkTables(st, w, e);
    } else if e.Decide? || e.Stop? {
      DecideTables(st, w, e);
    } else {
      HaltTables(st, w, e);
    }
  }

  /** Every object of the pool up to the cursor has been handed to the workers; a page leaves no gap. */
  ghost predicate Covered(st: State, pool: set<Oid>) {
    && (forall o :: o in pool && 0 < o <= st.cursor ==> o in st.past.popped || o in st.queue)
    && (st.feed.Offering? && st.feed.batch != [] ==>
          forall o :: o in pool && st.cursor < o <= st.feed.batch[|st.feed.batch| - 1] ==> o in st.feed.batch)
    && (st.feed == Closed(Exhausted) ==> forall o :: o in pool ==> o <= st.cursor)
  }

  lemma DoneIsBehind(st: State, o: Oid)
    requires Coherent(st) && o in st.past.done
    ensures 0 < o <= st.cursor && o in st.past.popped
  {
    assert st.past.writes[o] == 1;
  }

  /** The page leaves out nothing of the pool between the cursor and its last object. */
  lemma PageCovers(pool: set<Oid>, done: set<Oid>, cursor: Oid, n: nat)
    requires 0 < n && forall o :: o in done ==> o <= cursor
    ensures var page := Keyset.Page(pool - done, cursor, n);
            if page == [] then forall o :: o in pool ==> o <= cursor
            else forall o :: o in pool && cursor < o <= page[|page| - 1] ==> o in page
  {
    var rest := pool - done;
    var page := Keyset.Page(rest, cursor, n);
    Keyset.PageIsExact(rest, cursor, n);
    forall o | o in pool && cursor < o ensures o in Keyset.Above(rest, cursor) {
    }
    if page != [] {
      forall o | o in pool && cursor < o <= page[|page| - 1] ensures o in page {
        assert o in Keyset.UpTo(Keyset.Above(rest, cursor), page[|page| - 1]);
        assert o in Keyset.Elements(page);
      }
    }
  }

  lemma ClaimEffect(st: State, ok: bool, rest: set<Oid>)
    requires FeedStep(st, Claim(ok)).Some? && Claimables(st) == rest
    ensures var next, page := FeedStep(st, Claim(ok)).value, Keyset.Page(rest, st.cursor, 4 * st.width);
            && next.cursor == st.cursor && next.queue == st.queue && next.past == st.past
            && next.feed == if !ok then Closed(Broken) else if page == [] then Closed(Exhausted) else Offering(page)
  {
  }

  lemma PageIsCovered(st: State, next: State, pool: set<Oid>, ok: bool, page: seq<Oid>)
    requires Covered(st, pool) && next.cursor == st.cursor && next.queue == st.queue && next.past == st.past
    requires next.feed == if !ok then Closed(Broken) else if page == [] then Closed(Exhausted) else Offering(page)
    requires if page == [] then forall o :: o in pool ==> o <= st.cursor
             else forall o :: o in pool && st.cursor < o <= page[|page| - 1] ==> o in page
    ensures Covered(next, pool)
  {
  }

  lemma ClaimCovers(st: State, ok: bool, pool: set<Oid>)
    requires Covered(st, pool) && 0 < st.width && Claimables(st) == pool - st.past.done
    requires forall o :: o in st.past.done ==> o <= st.cursor
    requires FeedStep(st, Claim(ok)).Some?
    ensures Covered(FeedStep(st, Claim(ok)).value, pool)
  {
    ClaimEffect(st, ok, pool - st.past.done);
    PageCovers(pool, st.past.done, st.cursor, 4 * st.width);
    PageIsCovered(st, FeedStep(st, Claim(ok)).value, pool, ok,
                  Keyset.Page(pool - st.past.done, st.cursor, 4 * st.width));
  }

  lemma SendCovers(st: State, pool: set<Oid>)
    requires Coherent(st) && Covered(st, pool) && FeedStep(st, Send).Some?
    ensures Covered(FeedStep(st, Send).value, pool)
  {
    var next := FeedStep(st, Send).value;
    var batch := st.feed.batch;
    forall o | o in pool && 0 < o <= next.cursor ensures o in next.past.popped || o in next.queue {
      if st.cursor < o {
        assert o <= batch[0] <= batch[|batch| - 1];
        assert o in batch;
        var i :| 0 <= i < |batch| && batch[i] == o;
        assert i == 0;
      }
    }
    if next.feed.Offering? {
      forall o | o in pool && next.cursor < o <= batch[|batch| - 1] ensures o in batch[1..] {
        assert batch[0] in batch && o in batch;
        var i :| 0 <= i < |batch| && batch[i] == o;
        assert batch[1..][i - 1] == o;
      }
    }
  }

  lemma TakeCovers(st: State, w: nat, pool: set<Oid>)
    requires Covered(st, pool) && w < |st.workers| && StartStep(st, w, Take).Some?
    ensures Covered(StartStep(st, w, Take).value, pool)
  {
    var q := st.queue;
    forall o | o in q ensures o == q[0] || o in q[1..] {
      var i :| 0 <= i < |q| && q[i] == o;
      assert i > 0 ==> q[1..][i - 1] == o;
    }
  }

  lemma FeedCovers(st: State, e: FeedEvent, pool: set<Oid>)
    requires Coherent(st) && Covered(st, pool) && 0 < st.width && Claimables(st) == pool - st.past.done
    requires FeedStep(st, e).Some?
    ensures Covered(FeedStep(st, e).value, pool)
  {
    match e
    case Claim(ok) =>
      forall o | o in st.past.done ensures o <= st.cursor {
        DoneIsBehind(st, o);
      }
      ClaimCovers(st, ok, pool);
    case Send => SendCovers(st, pool);
    case _ =>
  }

  lemma CoveredKept(st: State, e: Step, next: State, pool: set<Oid>)
    requires Coherent(st) && Covered(st, pool) && 0 < st.width && Claimables(st) == pool - st.past.done
    requires Next(st, e) == Some(next)
    ensures Covered(next, pool)
  {
    match e
    case Interrupt =>
    case Others(_, _) =>
    case Feeder(f) => FeedCovers(st, f, pool);
    case AtWorker(w, f) =>
      if f == Take {
        TakeCovers(st, w, pool);
      } else {
        WorkerLeavesFeed(st, w, f);
      }
  }

  lemma FailuresStay(st: State, e: Step, next: State)
    requires Next(st, e) == Some(next)
    ensures st.failed <= next.failed
  {
    match e
    case Interrupt =>
    case Others(_, _) =>
    case Feeder(f) => FeedTables(st, f);
    case AtWorker(w, f) => WorkerFailures(st, w, f);
  }

  lemma WorkerFailures(st: State, w: nat, e: WorkEvent)
    requires w < |st.workers| && WorkerStep(st, w, e).Some?
    ensures st.failed <= WorkerStep(st, w, e).value.failed
  {
    if !e.Write? {
      OthersLeaveMarks(st, w, e, WorkerStep(st, w, e).value);
    }
  }

  lemma {:induction false} AlwaysClaimed(t: Trace, n: nat)
    requires Ran(t) && n <= |t.steps|
    ensures Claimed(t.states[n], t.states[0].sys.db, t.states[0].sys.session.task)
  {
    if n > 0 {
      AlwaysClaimed(t, n - 1);
      ClaimedKept(t.states[n - 1], t.steps[n - 1], t.states[n], t.states[0].sys.db, t.states[0].sys.session.task);
    }
  }

  /** What the feeder can still claim at the start of the run. */
  function Pool(t: Trace): set<Oid>
    requires t.states != [] && t.states[0].sys.session.Purging?
  {
    ClaimableOids(t.states[0].sys.db, t.states[0].sys.session.task)
  }

  lemma {:induction false} AlwaysCovered(t: Trace, n: nat)
    requires Ran(t) && n <= |t.steps| && t.states[n].failed == 0
    ensures Covered(t.states[n], Pool(t))
  {
    if n > 0 {
      FailuresStay(t.states[n - 1], t.steps[n - 1], t.states[n]);
      AlwaysCovered(t, n - 1);
      AlwaysCoherent(t, n - 1);
      AlwaysClaimed(t, n - 1);
      SameWidth(t, n - 1);
      CoveredKept(t.states[n - 1], t.steps[n - 1], t.states[n], Pool(t));
    }
  }

  /** Success means that the feeder saw an empty page and nothing was cancelled. */
  lemma CleanEnd(st: State)
    requires Coherent(st) && Succeeds(st)
    ensures st.feed == Closed(Exhausted) && !st.cancelled
  {
    EndCases(st.feed);
  }

  lemma EndCases(f: Feed)
    requires f.Closed?
    ensures f == Closed(Exhausted) || f == Closed(Refrained) || f == Closed(Broken)
  {
    match f.end
    case Exhausted =>
    case Refrained =>
    case Broken =>
  }

  /** An object let through in a run that reports success has its completion in the table. */
  lemma SuccessMeansDone(st: State, o: Oid)
    requires Coherent(st) && Succeeds(st) && o in st.past.popped
    ensures o in st.past.done
  {
    assert !SomeTaken(st.workers, o) && !SomeCarries(st.workers, o);
    assert o in st.past.admitted;
    assert st.past.writes[o] == 1;
  }

  /**
   A run that reports success has recorded the completion of every object that could be claimed
   when it started, except possibly object 0, which the cursor never reaches.
   */
  lemma SuccessIsComplete(t: Trace, n: nat)
    requires Ran(t) && n <= |t.steps| && Succeeds(t.states[n])
    ensures forall o :: o in Pool(t) && 0 < o ==> o in t.states[n].past.done
    ensures Claimables(t.states[n]) == Pool(t) * {0}
  {
    var st := t.states[n];
    AlwaysCoherent(t, n);
    AlwaysCovered(t, n);
    AlwaysClaimed(t, n);
    CleanEnd(st);
    forall o | o in Pool(t) && 0 < o ensures o in st.past.done {
      SuccessMeansDone(st, o);
    }
    forall o | o in st.past.done ensures o != 0 {
      DoneIsBehind(st, o);
    }
  }

  // ---------------------------------------------------------------- the milestone afterwards

  /** Starting the pass turned every processed member with residue back into a failed one. */
  lemma BeginPurgeRequeues(db: Db, t: TaskId, o: Oid)
    requires BeginPurge(db, t).Ok? && Claimable(BeginPurge(db, t).value, t, o)
    ensures !Processed(BeginPurge(db, t).value, o)
  {
    if o in db.progress && db.members[(t, o)].check == Residue {
      assert o in ResidueOids(db, t);
    }
  }

  lemma AllProcessedWhenUnclaimed(db: Db, t: TaskId)
    requires Frozen(db) && forall o :: o in ClaimableOids(db, t) ==> Processed(db, o)
    ensures AllProcessed(db, t)
  {
    ClaimablesAre(db, t);
    forall k | k in db.members && k.0 == t && !db.members[k].deferred ensures Processed(db, k.1) {
      assert k == (t, k.1);
      assert Active(db, t, k.1) && k.1 in db.scan;
    }
  }

  /** The pass was begun on the task by the last event of the history. */
  lemma PassBegan(r: Run)
    requires Happened(r) && r.events != [] && BeginsPass(r.events[|r.events| - 1])
    ensures var s, next := r.states[|r.events| - 1], r.states[|r.events|];
            next.session.Purging? && BeginPurge(s.db, next.session.task) == Ok(next.db)
  {
    assert Apply(r.states[|r.events| - 1], r.events[|r.events| - 1]) == Some(r.states[|r.events|]);
  }

  predicate BeginsPass(e: Event) {
    e.Tasks? && e.task.StartPurge?
  }

  lemma NothingInHand(st: State)
    requires InStep(st) && Coherent(st) && Succeeds(st)
    ensures st.sys.session.work == map[] && !st.sys.session.halted
  {
    forall o ensures o !in st.sys.session.work {
      assert !SomeCarries(st.workers, o);
    }
  }

  lemma NoHoldAtStart(before: Db, t: TaskId)
    requires BeginPurge(before, t).Ok?
    ensures var after := BeginPurge(before, t).value; t in after.tasks && !after.tasks[t].done && !Held(after.tasks[t])
  {
  }

  /** The tables at the end of a successful run: everything is processed unless object 0 was left. */
  lemma SuccessInTables(t: Trace, n: nat, before: Db, id: TaskId)
    requires Ran(t) && n <= |t.steps| && Succeeds(t.states[n]) && Frozen(t.states[n].sys.db)
    requires BeginPurge(before, id) == Ok(t.states[0].sys.db) && t.states[0].sys.session.task == id
    ensures AllProcessed(t.states[n].sys.db, id) <==> !Claimable(t.states[0].sys.db, id, 0)
  {
    var start, end := t.states[0].sys.db, t.states[n].sys.db;
    SuccessIsComplete(t, n);
    AlwaysClaimed(t, n);
    ClaimablesAre(start, id);
    ClaimablesAre(end, id);
    if Claimable(start, id, 0) {
      BeginPurgeRequeues(before, id, 0);
      AlwaysCoherent(t, n);
      ZeroIsNeverDone(t.states[n]);
      assert 0 in ClaimableOids(end, id) && !Processed(end, 0);
    } else {
      AllProcessedWhenUnclaimed(end, id);
    }
  }

  lemma MilestoneGranted(s: Sys, id: TaskId)
    requires Good(s) && s.session == Purging(id, false, map[]) && !Held(s.db.tasks[id])
    ensures PurgeStep(s, FinishPurge).Some? <==> AllProcessed(s.db, id)
  {
    CompletePurgeExact(s.db, id);
  }

  lemma EndOfSuccess(t: Trace, n: nat)
    requires Ran(t) && n <= |t.steps| && Succeeds(t.states[n])
    ensures t.states[n].sys.session == Purging(t.states[0].sys.session.task, false, map[])
    ensures t.states[n].sys.db.tasks == t.states[0].sys.db.tasks
  {
    AlwaysClaimed(t, n);
    OneAlarm(t, n);
    AlwaysInStep(t, n);
    AlwaysCoherent(t, n);
    NothingInHand(t.states[n]);
  }

  /**
   A history leads to the start of a deletion pass, and the pass reports success. Then the
   deletion milestone that the command writes next is granted exactly when object 0, which the
   cursor never reaches, was not left to process.
   */
  lemma SuccessThenMilestone(r: Run, t: Trace, n: nat)
    requires Happened(r) && r.events != [] && BeginsPass(r.events[|r.events| - 1])
    requires Ran(t) && n <= |t.steps| && t.states[0].sys == r.states[|r.events|] && Succeeds(t.states[n])
    ensures PurgeStep(t.states[n].sys, FinishPurge).Some?
       <==> !Claimable(t.states[0].sys.db, t.states[0].sys.session.task, 0)
  {
    var id, before := t.states[0].sys.session.task, r.states[|r.events| - 1].db;
    PassBegan(r);
    NoHoldAtStart(before, id);
    EndIsGood(r, t, n);
    EndOfSuccess(t, n);
    SuccessInTables(t, n, before, id);
    MilestoneGranted(t.states[n].sys, id);
  }

  lemma EndIsGood(r: Run, t: Trace, n: nat)
    requires Happened(r) && Ran(t) && n <= |t.steps| && t.states[0].sys == r.states[|r.events|]
    ensures Good(t.states[n].sys)
  {
    var longer := RunIsHistory(r, t, n);
    AlwaysGood(longer, |longer.events|);
  }

  lemma ZeroIsNeverDone(st: State)
    requires Coherent(st)
    ensures 0 !in st.past.done
  {
    if 0 in st.past.done {
      DoneIsBehind(st, 0);
    }
  }
}
