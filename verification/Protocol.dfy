/**
 The concurrent run of one deletion pass (internal/purge, Run): a feeder that pages through the
 claimable objects, a bounded channel, and workers that check, delete and record. Every access
 to shared state is one step, and steps of different goroutines interleave in any order.

 An ordinary failure stops admission and lets admitted objects finish; a safety violation also
 cancels them and raises the alarm once; the operator may cancel at any time. Each step that
 touches the tables or the store is an event of the tool's state machine.
 */
module Protocol {
  import opened Wrappers
  import opened Ledger
  import opened Storage
  import opened System
  import Engine
  import Keyset

  datatype Outcome = Success | Ordinary | Safety

  /** What the result of one attempt on an object is to the run. */
  function OutcomeOf(err: Option<Engine.Failure>): Outcome {
    match err
    case None => Success
    case Some(f) => if Engine.IsSafety(f) then Safety else Ordinary
  }

  /** Where a worker is with the object it holds. */
  datatype Worker =
    | Waiting
    | Taken(oid: Oid)                      // received from the channel
    | Started(oid: Oid)                    // let through by the start lock
    | Working(oid: Oid, armed: bool, seen: nat) // processing; `armed` between a passed check and its delete
                                           // request, `seen` prefixes found empty by the final re-check
    | Returned(oid: Oid, outcome: Outcome)
    | Stopping(oid: Oid)                   // about to stop admission
    | Halting(oid: Oid)                    // about to enter the once-only halt
    | Alerting(oid: Oid)                   // inside it: cancelled, hold not yet written
    | Writing(oid: Oid, outcome: Outcome)
    | Unsaved(oid: Oid)                    // the completion was not recorded; about to stop admission

  datatype End = Exhausted | Refrained | Broken
  datatype Feed = AtTop | Claiming | Offering(batch: seq<Oid>) | Closed(end: End)
  datatype Halt = NotHalted | Alarmed(worker: nat) | Latched

  /** What the run has done so far; nothing in the program reads it. */
  datatype History = History(
    popped: set<Oid>,         // received by some worker
    dropped: set<Oid>,        // received and not let through
    admitted: seq<Oid>,       // let through, in order
    skipped: set<Oid>,        // let through and abandoned without a result because of a cancellation
    writes: multiset<Oid>,    // result writes attempted
    done: set<Oid>,           // completions that reached the table
    supplied: set<string>,    // keys put into the bucket by others
    alerts: nat,              // calls of OnSafety
    late: nat)                // delete requests issued after the halt

  datatype State = State(
    width: nat, sys: Sys,
    feed: Feed, cursor: Oid, queue: seq<Oid>, workers: seq<Worker>,
    cancelled: bool, interrupted: bool, stopped: bool, halt: Halt,
    failed: nat, unrecorded: set<Oid>,
    past: History)

  datatype FeedEvent = Top | Claim(ok: bool) | Send | Refrain

  datatype WorkEvent =
    | Take | Begin | Enter
    | Arm | Fire(confirmed: set<string>, silent: set<string>) | Recheck | Return(err: Option<Engine.Failure>)
    | Decide | Stop | RaiseHalt | Alert(ok: bool, reason: string)
    | Write(ok: bool, applied: bool)

  datatype Step =
    | Interrupt
    | Others(key: string, size: nat)       // somebody else puts a key into the bucket
    | Feeder(feed: FeedEvent)
    | AtWorker(worker: nat, work: WorkEvent)

  predicate Halted(st: State) {
    st.halt != NotHalted
  }

  function At(st: State, w: nat, phase: Worker): State
    requires w < |st.workers|
  {
    st.(workers := st.workers[w := phase])
  }

  // ---------------------------------------------------------------- the feeder

  function Claimables(st: State): set<Oid> {
    if st.sys.session.Purging? then ClaimableOids(st.sys.db, st.sys.session.task) else {}
  }

  /** The loop top, the claim of one page, and the offer of its objects to the channel. */
  function FeedStep(st: State, e: FeedEvent): Option<State> {
    match (e, st.feed)
    case (Top, AtTop) =>
      if st.stopped then Some(st.(feed := Closed(Refrained)))
      else if st.cancelled then Some(st.(feed := Closed(Broken)))
      else Some(st.(feed := Claiming))
    case (Claim(ok), Claiming) =>
      if !ok then Some(st.(feed := Closed(Broken), stopped := true))
      else
        var page := Keyset.Page(Claimables(st), st.cursor, 4 * st.width);
        Some(st.(feed := if page == [] then Closed(Exhausted) else Offering(page)))
    case (Send, Offering(batch)) =>
      if batch == [] || 2 * st.width <= |st.queue| then None
      else Some(st.(queue := st.queue + [batch[0]], cursor := batch[0],
                    feed := if |batch| == 1 then AtTop else Offering(batch[1..])))
    case (Refrain, Offering(_)) =>
      if st.stopped then Some(st.(feed := Closed(Refrained)))
      else if st.cancelled then Some(st.(feed := Closed(Broken)))
      else None
    case _ => None
  }

  // ---------------------------------------------------------------- the workers

  /** The attempt on the object ends without a result in the table. */
  function WithoutWork(s: Sys, o: Oid): Sys {
    if s.session.Purging? then s.(session := s.session.(work := s.session.work - {o})) else s
  }

  ghost function Purged(s: Sys, e: PurgeEvent): Sys {
    match PurgeStep(s, e)
    case Some(next) => next
    case None => s
  }

  /** Taking an object, the start lock, and the first look at the context. */
  ghost function StartStep(st: State, w: nat, e: WorkEvent): Option<State>
    requires w < |st.workers|
  {
    var past := st.past;
    match (e, st.workers[w])
    case (Take, Waiting) =>
      if st.queue == [] then None
      else Some(At(st, w, Taken(st.queue[0])).(queue := st.queue[1..],
            past := past.(popped := past.popped + {st.queue[0]})))
    case (Begin, Taken(o)) =>
      if st.stopped || st.cancelled then Some(At(st, w, Waiting).(past := past.(dropped := past.dropped + {o})))
      else Some(At(st, w, Started(o)).(sys := Purged(st.sys, Admit(o)), past := past.(admitted := past.admitted + [o])))
    case (Enter, Started(o)) =>
      if st.cancelled
      then Some(At(st, w, Waiting).(sys := WithoutWork(st.sys, o), past := past.(skipped := past.skipped + {o})))
      else Some(At(st, w, Working(o, false, 0)))
    case _ => None
  }

  /**
   The requests of ProcessOne. Each delete request is preceded by a check of the context; only
   an attempt whose final re-check found both prefixes empty returns without an error.
   */
  ghost function WorkStep(st: State, w: nat, e: WorkEvent): Option<State>
    requires w < |st.workers|
  {
    var past := st.past;
    match (e, st.workers[w])
    case (Arm, Working(o, armed, seen)) =>
      if armed || 0 < seen || st.cancelled then None else Some(At(st, w, Working(o, true, 0)))
    case (Fire(confirmed, silent), Working(o, armed, seen)) =>
      if !armed || PurgeStep(st.sys, Remove(o, confirmed, silent)).None? then None
      else Some(At(st, w, Working(o, false, seen)).(sys := Purged(st.sys, Remove(o, confirmed, silent)),
                                                    past := past.(late := past.late + if Halted(st) then 1 else 0)))
    case (Recheck, Working(o, armed, seen)) =>
      if armed || 2 <= seen || Under(st.sys.store, o, seen) != {} then None
      else Some(At(st, w, Working(o, false, seen + 1)))
    case (Return(err), Working(o, armed, seen)) =>
      if armed || (err == None && seen < 2) then None else Some(At(st, w, Returned(o, OutcomeOf(err))))
    case _ => None
  }

  /** After ProcessOne: interrupted, on to the halt, on to the stop, or straight on to the result. */
  ghost function DecideStep(st: State, w: nat, e: WorkEvent): Option<State>
    requires w < |st.workers|
  {
    var past := st.past;
    match (e, st.workers[w])
    case (Decide, Returned(o, outcome)) =>
      if outcome == Ordinary && st.cancelled
      then Some(At(st, w, Waiting).(sys := WithoutWork(st.sys, o), past := past.(skipped := past.skipped + {o})))
      else Some(At(st, w, match outcome
                          case Safety => Halting(o)
                          case Ordinary => Stopping(o)
                          case Success => Writing(o, Success)))
    case (Stop, Stopping(o)) => Some(At(st, w, Writing(o, Ordinary)).(stopped := true))
    case (Stop, Unsaved(o)) => Some(At(st, w, Waiting).(stopped := true))
    case _ => None
  }

  /** The once-only halt: cancel everything, then persist the hold; later callers wait for the first. */
  ghost function HaltStep(st: State, w: nat, e: WorkEvent): Option<State>
    requires w < |st.workers|
  {
    var past := st.past;
    match (e, st.workers[w])
    case (RaiseHalt, Halting(o)) =>
      (match st.halt
       case NotHalted => Some(At(st, w, Alerting(o)).(cancelled := true, halt := Alarmed(w)))
       case Alarmed(_) => None
       case Latched => Some(At(st, w, Writing(o, Safety))))
    case (Alert(ok, reason), Alerting(o)) =>
      if reason == "" then None
      else Some(At(st, w, Writing(o, Safety)).(halt := Latched, past := past.(alerts := past.alerts + 1),
                                               sys := if ok then Purged(st.sys, HoldOid(o, reason)) else st.sys))
    case _ => None
  }

  /**
   The result write. `applied` says whether the transaction took effect, `ok` what the program
   was told: a write may be refused, or succeed and still report an error.
   */
  ghost function WriteStep(st: State, w: nat, ok: bool, applied: bool): Option<State>
    requires w < |st.workers|
  {
    var past := st.past;
    match st.workers[w]
    case Writing(o, outcome) =>
      var e := if outcome == Success then Finish(o) else GiveUp(o);
      var reached := applied && PurgeStep(st.sys, e).Some?;
      if ok && !reached then None
      else
        Some(At(st, w, if outcome == Success && !ok then Unsaved(o) else Waiting).(
               sys := if reached then Purged(st.sys, e) else WithoutWork(st.sys, o),
               failed := st.failed + if outcome == Success then 0 else 1,
               unrecorded := if ok then st.unrecorded - {o} else st.unrecorded + {o},
               past := past.(writes := past.writes + multiset{o},
                             done := past.done + if reached && outcome == Success then {o} else {})))
    case _ => None
  }

  predicate IsWork(e: WorkEvent) {
    e.Arm? || e.Fire? || e.Recheck? || e.Return?
  }

  ghost function WorkerStep(st: State, w: nat, e: WorkEvent): Option<State>
    requires w < |st.workers|
  {
    if e.Take? || e.Begin? || e.Enter? then StartStep(st, w, e)
    else if IsWork(e) then WorkStep(st, w, e)
    else if e.Decide? || e.Stop? then DecideStep(st, w, e)
    else if e.Write? then WriteStep(st, w, e.ok, e.applied)
    else HaltStep(st, w, e)
  }

  ghost function Next(st: State, e: Step): Option<State> {
    match e
    case Interrupt => Some(st.(cancelled := true, interrupted := true))
    case Others(key, size) =>
      if key in st.sys.store then None
      else Some(st.(sys := st.sys.(store := st.sys.store[key := size]),
                    past := st.past.(supplied := st.past.supplied + {key})))
    case Feeder(f) => FeedStep(st, f)
    case AtWorker(w, f) => if w < |st.workers| then WorkerStep(st, w, f) else None
  }

  // ---------------------------------------------------------------- beginning and end

  const NO_HISTORY := History({}, {}, [], {}, multiset{}, {}, {}, 0, 0)

  /** The run begins right after the deletion pass was begun on the task. */
  ghost predicate Starts(st: State) {
    && 0 < st.width == |st.workers| && (forall w :: 0 <= w < st.width ==> st.workers[w] == Waiting)
    && st.feed == AtTop && st.cursor == 0 && st.queue == []
    && !st.cancelled && !st.interrupted && !st.stopped && st.halt == NotHalted
    && st.failed == 0 && st.unrecorded == {} && st.past == NO_HISTORY
    && st.sys.session.Purging? && st.sys.session.work == map[] && !st.sys.session.halted
  }

  /** The feed is closed, the channel is drained and every worker has returned. */
  predicate Over(st: State) {
    st.feed.Closed? && st.queue == [] && forall w :: 0 <= w < |st.workers| ==> st.workers[w] == Waiting
  }

  /** finish: the run reports no problem. */
  predicate Succeeds(st: State) {
    && Over(st) && st.halt == NotHalted && !st.stopped && st.feed != Closed(Broken)
    && st.failed == 0 && st.unrecorded == {} && !st.interrupted
  }

  /** An interleaving: the states and the steps between them. */
  datatype Trace = Trace(states: seq<State>, steps: seq<Step>)

  ghost predicate Ran(r: Trace) {
    && |r.states| == |r.steps| + 1 && Starts(r.states[0])
    && forall i {:trigger Next(r.states[i], r.steps[i])} :: 0 <= i < |r.steps| ==>
         Next(r.states[i], r.steps[i]) == Some(r.states[i + 1])
  }
}
