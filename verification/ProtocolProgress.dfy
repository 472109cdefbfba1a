/** The concurrent run never gets stuck: until it is over, the feeder or some worker can move. */
module ProtocolProgress {
  import opened Wrappers
  import opened Ledger
  import opened Storage
  import opened System
  import opened Protocol
  import opened ProtocolInvariants
  import opened ProtocolTheorems
  import Engine

  /** The step is one of the run's own goroutines, not of the operator or of others. */
  predicate IsOwn(e: Step) {
    e.Feeder? || e.AtWorker?
  }

  /** The feeder or some worker has a step to take. */
  ghost predicate CanMove(st: State) {
    exists e :: IsOwn(e) && Next(st, e).Some?
  }

  lemma Moves(st: State, e: Step)
    requires IsOwn(e) && Next(st, e).Some?
    ensures CanMove(st)
  {
  }

  /** A delete request always has an outcome: at worst nothing is deleted. */
  lemma NothingRemoved(s: Sys, o: Oid)
    requires s.session.Purging? && o in s.session.work
    ensures PurgeStep(s, Remove(o, {}, {})).Some?
  {
  }

  lemma WorkMoves(st: State, w: nat)
    requires InStep(st) && w < |st.workers| && st.workers[w].Working?
    ensures CanMove(st)
  {
    var Working(o, armed, _) := st.workers[w];
    if armed {
      HandIsWork(st, w);
      NothingRemoved(st.sys, o);
      assert WorkStep(st, w, Fire({}, {})).Some?;
      Moves(st, AtWorker(w, Fire({}, {})));
    } else {
      assert WorkStep(st, w, Return(Some(Engine.Interrupted))).Some?;
      Moves(st, AtWorker(w, Return(Some(Engine.Interrupted))));
    }
  }

  lemma DecideMoves(st: State, w: nat)
    requires w < |st.workers| && (st.workers[w].Returned? || st.workers[w].Stopping? || st.workers[w].Unsaved?)
    ensures CanMove(st)
  {
    var e := if st.workers[w].Returned? then Decide else Stop;
    assert DecideStep(st, w, e).Some?;
    Moves(st, AtWorker(w, e));
  }

  lemma HaltMoves(st: State, w: nat)
    requires w < |st.workers| && ((st.workers[w].Halting? && !st.halt.Alarmed?) || st.workers[w].Alerting?)
    ensures CanMove(st)
  {
    var e := if st.workers[w].Halting? then RaiseHalt else Alert(false, "cancelled");
    assert HaltStep(st, w, e).Some?;
    Moves(st, AtWorker(w, e));
  }

  lemma BeginMoves(st: State, w: nat)
    requires w < |st.workers| && (st.workers[w].Taken? || st.workers[w].Started?)
    ensures CanMove(st)
  {
    var e := if st.workers[w].Taken? then Begin else Enter;
    assert StartStep(st, w, e).Some?;
    Moves(st, AtWorker(w, e));
  }

  /** A worker that holds an object can move on, or waits for the one that raises the alarm. */
  lemma HolderMoves(st: State, w: nat)
    requires InStep(st) && w < |st.workers| && !st.workers[w].Waiting?
    requires st.workers[w].Halting? ==> !st.halt.Alarmed?
    ensures CanMove(st)
  {
    match st.workers[w]
    case Taken(_) => BeginMoves(st, w);
    case Started(_) => BeginMoves(st, w);
    case Working(_, _, _) => WorkMoves(st, w);
    case Returned(_, _) => DecideMoves(st, w);
    case Stopping(_) => DecideMoves(st, w);
    case Unsaved(_) => DecideMoves(st, w);
    case Halting(_) => HaltMoves(st, w);
    case Alerting(_) => HaltMoves(st, w);
    case Writing(_, _) => Moves(st, AtWorker(w, Write(false, false)));
  }

  lemma FeederMoves(st: State)
    requires Coherent(st) && !st.feed.Closed? && st.queue == [] && 0 < st.width
    ensures CanMove(st)
  {
    match st.feed
    case AtTop => Moves(st, Feeder(Top));
    case Claiming => Moves(st, Feeder(Claim(false)));
    case Offering(_) => Moves(st, Feeder(Send));
  }

  /** In every reachable state that is not the end, some goroutine of the run can take a step. */
  lemma NoDeadlock(t: Trace, n: nat)
    requires Ran(t) && n <= |t.steps| && !Over(t.states[n])
    ensures CanMove(t.states[n])
  {
    var st := t.states[n];
    AlwaysCoherent(t, n);
    AlwaysInStep(t, n);
    SameWidth(t, n);
    if st.halt.Alarmed? {
      HolderMoves(st, st.halt.worker);
    } else if w :| 0 <= w < |st.workers| && st.workers[w] != Waiting {
      HolderMoves(st, w);
    } else if st.queue != [] {
      Moves(st, AtWorker(0, Take));
    } else {
      FeederMoves(st);
    }
  }
}
