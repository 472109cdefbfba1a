/**
 What a successful concurrent run says about storage: whatever is left of an object it could
 claim was put there by somebody else while it ran.
 */
module ProtocolStorage {
  import opened Wrappers
  import opened Ledger
  import opened Storage
  import opened System
  import opened Protocol
  import opened ProtocolInvariants
  import opened ProtocolTheorems

  /** Everything stored of the object was put there by others during the run. */
  ghost predicate Explained(store: map<string, nat>, o: Oid, supplied: set<string>) {
    Residues(store, o) <= supplied
  }

  /** The final re-check has found the first `seen` prefixes empty. */
  ghost predicate Rechecked(store: map<string, nat>, o: Oid, seen: nat, supplied: set<string>) {
    seen <= 2 && (1 <= seen ==> Under(store, o, 0) <= supplied) && (2 <= seen ==> Under(store, o, 1) <= supplied)
  }

  ghost predicate WorkerSwept(p: Worker, store: map<string, nat>, supplied: set<string>) {
    match p
    case Working(o, _, seen) => Rechecked(store, o, seen, supplied)
    case Returned(o, Success) => Explained(store, o, supplied)
    case Writing(o, Success) => Explained(store, o, supplied)
    case _ => true
  }

  ghost predicate Swept(st: State) {
    && (forall w :: 0 <= w < |st.workers| ==> WorkerSwept(st.workers[w], st.sys.store, st.past.supplied))
    && (forall o :: o in st.past.done ==> Explained(st.sys.store, o, st.past.supplied))
  }

  /** The store gains no key that the run does not know to be supplied. */
  ghost predicate StoreMoves(st: State, next: State) {
    && st.past.supplied <= next.past.supplied
    && next.sys.store.Keys <= st.sys.store.Keys + next.past.supplied
  }

  lemma StaysExplained(st: State, next: State, o: Oid)
    requires StoreMoves(st, next) && Explained(st.sys.store, o, st.past.supplied)
    ensures Explained(next.sys.store, o, next.past.supplied)
  {
    UnderMoves(st, next, o, 0);
    UnderMoves(st, next, o, 1);
  }

  lemma UnderMoves(st: State, next: State, o: Oid, i: nat)
    requires i < 2 && StoreMoves(st, next)
    ensures Under(next.sys.store, o, i) <= Under(st.sys.store, o, i) + next.past.supplied
  {
  }

  lemma StaysRechecked(st: State, next: State, o: Oid, seen: nat)
    requires StoreMoves(st, next) && Rechecked(st.sys.store, o, seen, st.past.supplied)
    ensures Rechecked(next.sys.store, o, seen, next.past.supplied)
  {
    UnderMoves(st, next, o, 0);
    UnderMoves(st, next, o, 1);
  }

  lemma StaysSwept(st: State, next: State, p: Worker)
    requires StoreMoves(st, next) && WorkerSwept(p, st.sys.store, st.past.supplied)
    ensures WorkerSwept(p, next.sys.store, next.past.supplied)
  {
    match p
    case Working(o, _, seen) => StaysRechecked(st, next, o, seen);
    case Returned(o, Success) => StaysExplained(st, next, o);
    case Writing(o, Success) => StaysExplained(st, next, o);
    case _ =>
  }

  /** One worker moves on; a completion is added only for an explained object. */
  lemma SweptMoves(st: State, next: State, w: nat)
    requires Swept(st) && StoreMoves(st, next) && w < |st.workers| == |next.workers|
    requires next.workers == st.workers[w := next.workers[w]]
    requires WorkerSwept(next.workers[w], next.sys.store, next.past.supplied)
    requires forall o :: o in next.past.done && o !in st.past.done ==> Explained(next.sys.store, o, next.past.supplied)
    ensures Swept(next)
  {
    forall v | 0 <= v < |next.workers| ensures WorkerSwept(next.workers[v], next.sys.store, next.past.supplied) {
      if v != w {
        StaysSwept(st, next, st.workers[v]);
      }
    }
    forall o | o in next.past.done ensures Explained(next.sys.store, o, next.past.supplied) {
      if o in st.past.done {
        StaysExplained(st, next, o);
      }
    }
  }

  // ---------------------------------------------------------------- every step

  lemma PurgeStepShrinks(s: Sys, e: PurgeEvent)
    requires PurgeStep(s, e).Some?
    ensures PurgeStep(s, e).value.store.Keys <= s.store.Keys
  {
  }

  lemma PurgedShrinks(s: Sys, e: PurgeEvent)
    ensures Purged(s, e).store.Keys <= s.store.Keys
  {
    if PurgeStep(s, e).Some? {
      PurgeStepShrinks(s, e);
    }
  }

  lemma StartSwept(st: State, w: nat, e: WorkEvent, next: State)
    requires Swept(st) && w < |st.workers| && StartStep(st, w, e) == Some(next)
    ensures Swept(next)
  {
    if !st.workers[w].Waiting? {
      PurgedShrinks(st.sys, Admit(st.workers[w].oid));
    }
    SweptMoves(st, next, w);
  }

  lemma RecheckSwept(st: State, w: nat, next: State)
    requires Swept(st) && w < |st.workers| && WorkStep(st, w, Recheck) == Some(next)
    ensures Swept(next)
  {
    assert WorkerSwept(st.workers[w], st.sys.store, st.past.supplied);
    SweptMoves(st, next, w);
  }

  lemma FireSwept(st: State, w: nat, e: WorkEvent, next: State)
    requires Swept(st) && w < |st.workers| && e.Fire? && WorkStep(st, w, e) == Some(next)
    ensures Swept(next)
  {
    PurgedShrinks(st.sys, Remove(st.workers[w].oid, e.confirmed, e.silent));
    StaysSwept(st, next, st.workers[w]);
    SweptMoves(st, next, w);
  }

  lemma ReturnSwept(st: State, w: nat, e: WorkEvent, next: State)
    requires Swept(st) && w < |st.workers| && (e.Return? || e.Arm?) && WorkStep(st, w, e) == Some(next)
    ensures Swept(next)
  {
    assert WorkerSwept(st.workers[w], st.sys.store, st.past.supplied);
    SweptMoves(st, next, w);
  }

  lemma DecideSwept(st: State, w: nat, e: WorkEvent, next: State)
    requires Swept(st) && w < |st.workers| && DecideStep(st, w, e) == Some(next)
    ensures Swept(next)
  {
    assert WorkerSwept(st.workers[w], st.sys.store, st.past.supplied);
    SweptMoves(st, next, w);
  }

  lemma HaltSwept(st: State, w: nat, e: WorkEvent, next: State)
    requires Swept(st) && w < |st.workers| && HaltStep(st, w, e) == Some(next)
    ensures Swept(next)
  {
    if e.Alert? {
      PurgedShrinks(st.sys, HoldOid(st.workers[w].oid, e.reason));
    }
    SweptMoves(st, next, w);
  }

  lemma WriteSwept(st: State, w: nat, ok: bool, applied: bool, next: State)
    requires Swept(st) && w < |st.workers| && WriteStep(st, w, ok, applied) == Some(next)
    ensures Swept(next)
  {
    var Writing(o, outcome) := st.workers[w];
    PurgedShrinks(st.sys, if outcome == Success then Finish(o) else GiveUp(o));
    assert WorkerSwept(st.workers[w], st.sys.store, st.past.supplied);
    if outcome == Success {
      StaysExplained(st, next, o);
    }
    SweptMoves(st, next, w);
  }

  lemma WorkerKeepsSwept(st: State, w: nat, e: WorkEvent, next: State)
    requires Swept(st) && w < |st.workers| && WorkerStep(st, w, e) == Some(next)
    ensures Swept(next)
  {
    match e
    case Take => StartSwept(st, w, e, next);
    case Begin => StartSwept(st, w, e, next);
    case Enter => StartSwept(st, w, e, next);
    case Recheck => RecheckSwept(st, w, next);
    case Fire(_, _) => FireSwept(st, w, e, next);
    case Arm => ReturnSwept(st, w, e, next);
    case Return(_) => ReturnSwept(st, w, e, next);
    case Decide => DecideSwept(st, w, e, next);
    case Stop => DecideSwept(st, w, e, next);
    case Write(ok, applied) => WriteSwept(st, w, ok, applied, next);
    case _ => HaltSwept(st, w, e, next);
  }

  lemma AllStaySwept(st: State, next: State)
    requires Swept(st) && StoreMoves(st, next) && next.workers == st.workers && next.past.done == st.past.done
    ensures Swept(next)
  {
    forall v | 0 <= v < |next.workers| ensures WorkerSwept(next.workers[v], next.sys.store, next.past.supplied) {
      StaysSwept(st, next, st.workers[v]);
    }
    forall o | o in next.past.done ensures Explained(next.sys.store, o, next.past.supplied) {
      StaysExplained(st, next, o);
    }
  }

  lemma SweptNext(t: Trace, n: nat)
    requires Ran(t) && n < |t.steps| && Swept(t.states[n])
    ensures Swept(t.states[n + 1])
  {
    var st, next := t.states[n], t.states[n + 1];
    assert Next(st, t.steps[n]) == Some(next);
    match t.steps[n]
    case Interrupt => AllStaySwept(st, next);
    case Others(_, _) => AllStaySwept(st, next);
    case Feeder(f) =>
      FeedLeavesWorkers(st, f);
      AllStaySwept(st, next);
    case AtWorker(w, f) => WorkerKeepsSwept(st, w, f, next);
  }

  lemma AlwaysSwept(t: Trace, n: nat)
    requires Ran(t) && n <= |t.steps|
    ensures Swept(t.states[n])
  {
    var holds := seq(n + 1, i requires 0 <= i <= n => Swept(t.states[i]));
    forall i | 0 <= i < n && holds[i] ensures holds[i + 1] {
      SweptNext(t, i);
    }
    Stepwise(holds);
  }

  lemma OnlyOthersSupply(st: State, e: Step, next: State)
    requires Next(st, e) == Some(next) && !e.Others?
    ensures next.past.supplied == st.past.supplied
  {
    match e
    case Interrupt =>
    case Feeder(f) => FeedLeavesWorkers(st, f);
    case AtWorker(w, f) => WorkersSupplyNothing(st, w, f);
  }

  lemma WorkersSupplyNothing(st: State, w: nat, e: WorkEvent)
    requires w < |st.workers| && WorkerStep(st, w, e).Some?
    ensures WorkerStep(st, w, e).value.past.supplied == st.past.supplied
  {
    if IsWork(e) {
      WorkEffect(st, w, e, WorkerStep(st, w, e).value);
    } else if e.Decide? || e.Stop? {
      DecideEffect(st, w, e, WorkerStep(st, w, e).value);
    } else if e.RaiseHalt? || e.Alert? {
      HaltEffect(st, w, e, WorkerStep(st, w, e).value);
    }
  }

  lemma NothingSupplied(t: Trace, n: nat)
    requires Ran(t) && n <= |t.steps| && forall m :: 0 <= m < n ==> !t.steps[m].Others?
    ensures t.states[n].past.supplied == {}
  {
    var holds := seq(n + 1, i requires 0 <= i <= n => t.states[i].past.supplied == {});
    forall i | 0 <= i < n && holds[i] ensures holds[i + 1] {
      OnlyOthersSupply(t.states[i], t.steps[i], t.states[i + 1]);
    }
    Stepwise(holds);
  }

  /**
   After a run that reports success, anything stored of an object it could claim was supplied by
   others while it ran; if nobody writes keys back, nothing is left of any of them.
   */
  lemma SuccessLeavesNothing(t: Trace, n: nat, o: Oid)
    requires Ran(t) && n <= |t.steps| && Succeeds(t.states[n]) && o in ProtocolTheorems.Pool(t) && 0 < o
    ensures Residues(t.states[n].sys.store, o) <= t.states[n].past.supplied
    ensures (forall m :: 0 <= m < n ==> !t.steps[m].Others?) ==> Residues(t.states[n].sys.store, o) == {}
  {
    SuccessIsComplete(t, n);
    AlwaysSwept(t, n);
    assert Explained(t.states[n].sys.store, o, t.states[n].past.supplied);
    if forall m :: 0 <= m < n ==> !t.steps[m].Others? {
      NothingSupplied(t, n);
    }
  }
}
