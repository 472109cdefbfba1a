/** What every interleaving of the concurrent run keeps. */
module ProtocolInvariants {
  import opened Wrappers
  import opened Ledger
  import opened Storage
  import opened System
  import opened Protocol
  import Keyset

  // ---------------------------------------------------------------- who holds what

  predicate Holding(p: Worker, o: Oid) {
    !p.Waiting? && p.oid == o
  }

  /** The worker's object was let through, and its result is not yet written. */
  predicate InHand(p: Worker) {
    !p.Waiting? && !p.Taken? && !p.Unsaved?
  }

  predicate Carries(p: Worker, o: Oid) {
    InHand(p) && p.oid == o
  }

  predicate SomeTaken(ws: seq<Worker>, o: Oid) {
    exists w :: 0 <= w < |ws| && ws[w] == Taken(o)
  }

  predicate SomeCarries(ws: seq<Worker>, o: Oid) {
    exists w :: 0 <= w < |ws| && Carries(ws[w], o)
  }

  /** No two workers hold the same object. */
  ghost predicate Apart(ws: seq<Worker>) {
    forall v, w, o :: 0 <= v < w < |ws| && Holding(ws[v], o) ==> !Holding(ws[w], o)
  }

  /** Objects come in ascending order: received, waiting in the channel, still to be offered. */
  ghost predicate Order(st: State) {
    && Keyset.Ascending(st.queue)
    && (forall x :: x in st.past.popped || x in st.queue ==> 0 < x)
    && (forall x, y :: x in st.past.popped && y in st.queue ==> x < y)
    && (forall x :: x in st.past.popped ==> x <= st.cursor)
    && (forall y :: y in st.queue ==> y <= st.cursor)
    && (st.feed.Offering? ==> st.feed.batch != [] && Keyset.Ascending(st.feed.batch)
                              && forall y :: y in st.feed.batch ==> st.cursor < y)
  }

  ghost predicate Holders(ws: seq<Worker>, past: History) {
    && Apart(ws)
    && (forall w :: 0 <= w < |ws| && !ws[w].Waiting? ==> ws[w].oid in past.popped)
    && (forall w :: 0 <= w < |ws| && ws[w].Taken? ==> ws[w].oid !in past.admitted && ws[w].oid !in past.dropped)
    && (forall w :: 0 <= w < |ws| && InHand(ws[w]) ==>
          ws[w].oid in past.admitted && past.writes[ws[w].oid] == 0 && ws[w].oid !in past.skipped)
  }

  /** Every received object is being looked at, was let through once, or was dropped. */
  ghost predicate Admission(ws: seq<Worker>, past: History) {
    && Distinct(past.admitted)
    && (forall o :: o in past.admitted ==> o in past.popped && o !in past.dropped)
    && (forall o :: o in past.dropped ==> o in past.popped)
    && (forall o :: o in past.popped ==> o in past.admitted || o in past.dropped || SomeTaken(ws, o))
  }

  /** Every object let through is pending, was abandoned, or has had its one result write. */
  ghost predicate Results(ws: seq<Worker>, past: History) {
    && (forall o :: past.writes[o] <= 1)
    && (forall o :: past.writes[o] == 1 ==> o in past.admitted && o !in past.skipped)
    && (forall o :: o in past.skipped ==> o in past.admitted)
    && (forall o :: o in past.admitted ==> past.writes[o] == 1 || o in past.skipped || SomeCarries(ws, o))
  }

  ghost predicate Flags(st: State) {
    && (st.past.dropped != {} ==> st.stopped || st.cancelled)
    && (st.past.skipped != {} ==> st.cancelled)
    && (st.interrupted ==> st.cancelled)
    && (st.cancelled ==> st.interrupted || st.halt != NotHalted)
    && (st.feed == Closed(Refrained) ==> st.stopped) && (st.feed == Closed(Broken) ==> st.stopped || st.cancelled)
  }

  /** The alarm is raised by one worker, once. */
  ghost predicate Alarm(st: State) {
    && st.past.alerts == (if st.halt == Latched then 1 else 0)
    && (st.halt != NotHalted ==> st.cancelled)
    && (forall w :: 0 <= w < |st.workers| && st.workers[w].Alerting? ==> st.halt == Alarmed(w))
    && (st.halt.Alarmed? ==> st.halt.worker < |st.workers| && st.workers[st.halt.worker].Alerting?)
  }

  // ---------------------------------------------------------------- updating one worker

  lemma ApartUpdate(ws: seq<Worker>, w: nat, p: Worker)
    requires Apart(ws) && w < |ws|
    requires p.Waiting? || (forall v :: 0 <= v < |ws| && v != w ==> !Holding(ws[v], p.oid))
    ensures Apart(ws[w := p])
  {
  }

  lemma SameHolder(ws: seq<Worker>, w: nat, p: Worker)
    requires Apart(ws) && w < |ws| && !ws[w].Waiting? && (p.Waiting? || p.oid == ws[w].oid)
    ensures Apart(ws[w := p])
  {
    if !p.Waiting? {
      forall v | 0 <= v < |ws| && v != w ensures !Holding(ws[v], p.oid) {
        assert Holding(ws[w], p.oid);
      }
    }
    ApartUpdate(ws, w, p);
  }

  lemma StillTaken(ws: seq<Worker>, w: nat, p: Worker, o: Oid)
    requires w < |ws| && SomeTaken(ws, o) && ws[w] != Taken(o)
    ensures SomeTaken(ws[w := p], o)
  {
    var v :| 0 <= v < |ws| && ws[v] == Taken(o);
    assert ws[w := p][v] == Taken(o);
  }

  lemma StillCarries(ws: seq<Worker>, w: nat, p: Worker, o: Oid)
    requires w < |ws| && SomeCarries(ws, o) && (Carries(ws[w], o) ==> Carries(p, o))
    ensures SomeCarries(ws[w := p], o)
  {
    var v :| 0 <= v < |ws| && Carries(ws[v], o);
    assert Carries(ws[w := p][v], o);
  }

  ghost predicate Core(ws: seq<Worker>, past: History) {
    Holders(ws, past) && Admission(ws, past) && Results(ws, past)
  }

  /** The worker goes on with its pending object: nobody else is concerned. */
  lemma Onward(ws: seq<Worker>, w: nat, p: Worker, past: History)
    requires Core(ws, past) && w < |ws| && InHand(ws[w]) && Carries(p, ws[w].oid)
    ensures Core(ws[w := p], past)
  {
    SameHolder(ws, w, p);
    forall o | SomeTaken(ws, o) ensures SomeTaken(ws[w := p], o) {
      StillTaken(ws, w, p, o);
    }
    forall o | SomeCarries(ws, o) ensures SomeCarries(ws[w := p], o) {
      StillCarries(ws, w, p, o);
    }
  }

  /** A worker receives an object nobody has received before. */
  lemma Received(ws: seq<Worker>, w: nat, o: Oid, past: History)
    requires Core(ws, past) && w < |ws| && ws[w] == Waiting && o !in past.popped
    ensures Core(ws[w := Taken(o)], past.(popped := past.popped + {o}))
  {
    ApartUpdate(ws, w, Taken(o));
    assert ws[w := Taken(o)][w] == Taken(o);
    forall x | SomeTaken(ws, x) ensures SomeTaken(ws[w := Taken(o)], x) {
      StillTaken(ws, w, Taken(o), x);
    }
    forall x | SomeCarries(ws, x) ensures SomeCarries(ws[w := Taken(o)], x) {
      StillCarries(ws, w, Taken(o), x);
    }
  }

  /** The start lock turns an object away. */
  lemma Dropped(ws: seq<Worker>, w: nat, o: Oid, past: History)
    requires Core(ws, past) && w < |ws| && ws[w] == Taken(o)
    ensures Core(ws[w := Waiting], past.(dropped := past.dropped + {o}))
  {
    SameHolder(ws, w, Waiting);
    OnlyHolder(ws, w, o);
    forall x | SomeTaken(ws, x) && x != o ensures SomeTaken(ws[w := Waiting], x) {
      StillTaken(ws, w, Waiting, x);
    }
    forall x | SomeCarries(ws, x) ensures SomeCarries(ws[w := Waiting], x) {
      StillCarries(ws, w, Waiting, x);
    }
  }

  lemma OnlyHolder(ws: seq<Worker>, w: nat, o: Oid)
    requires Apart(ws) && w < |ws| && Holding(ws[w], o)
    ensures forall v :: 0 <= v < |ws| && v != w ==> !Holding(ws[v], o)
  {
  }

  /** The start lock lets an object through, for the first and only time. */
  lemma LetThrough(ws: seq<Worker>, w: nat, o: Oid, past: History)
    requires Core(ws, past) && w < |ws| && ws[w] == Taken(o)
    ensures Core(ws[w := Started(o)], past.(admitted := past.admitted + [o]))
  {
    SameHolder(ws, w, Started(o));
    OnlyHolder(ws, w, o);
    MembersSnoc(past.admitted, o);
    assert Carries(ws[w := Started(o)][w], o);
    forall x | SomeTaken(ws, x) && x != o ensures SomeTaken(ws[w := Started(o)], x) {
      StillTaken(ws, w, Started(o), x);
    }
    forall x | SomeCarries(ws, x) ensures SomeCarries(ws[w := Started(o)], x) {
      StillCarries(ws, w, Started(o), x);
    }
  }

  /** A pending object is abandoned without a result. */
  lemma Abandoned(ws: seq<Worker>, w: nat, o: Oid, past: History)
    requires Core(ws, past) && w < |ws| && Carries(ws[w], o)
    ensures Core(ws[w := Waiting], past.(skipped := past.skipped + {o}))
  {
    SameHolder(ws, w, Waiting);
    OnlyHolder(ws, w, o);
    forall x | SomeTaken(ws, x) ensures SomeTaken(ws[w := Waiting], x) {
      StillTaken(ws, w, Waiting, x);
    }
    forall x | SomeCarries(ws, x) && x != o ensures SomeCarries(ws[w := Waiting], x) {
      StillCarries(ws, w, Waiting, x);
    }
  }

  /** The result of a pending object is written. */
  lemma Written(ws: seq<Worker>, w: nat, o: Oid, p: Worker, past: History, done: set<Oid>)
    requires Core(ws, past) && w < |ws| && Carries(ws[w], o) && (p == Waiting || p == Unsaved(o))
    ensures Core(ws[w := p], past.(writes := past.writes + multiset{o}, done := done))
  {
    SameHolder(ws, w, p);
    OnlyHolder(ws, w, o);
    forall x | SomeTaken(ws, x) ensures SomeTaken(ws[w := p], x) {
      StillTaken(ws, w, p, x);
    }
    forall x | SomeCarries(ws, x) && x != o ensures SomeCarries(ws[w := p], x) {
      StillCarries(ws, w, p, x);
    }
  }

  /** The worker is done with an object whose completion was not recorded. */
  lemma LetGo(ws: seq<Worker>, w: nat, past: History)
    requires Core(ws, past) && w < |ws| && ws[w].Unsaved?
    ensures Core(ws[w := Waiting], past)
  {
    SameHolder(ws, w, Waiting);
    forall x | SomeTaken(ws, x) ensures SomeTaken(ws[w := Waiting], x) {
      StillTaken(ws, w, Waiting, x);
    }
    forall x | SomeCarries(ws, x) ensures SomeCarries(ws[w := Waiting], x) {
      StillCarries(ws, w, Waiting, x);
    }
  }

  /** The counters of alerts and late requests are no part of this. */
  lemma CoreIgnores(ws: seq<Worker>, past: History, alerts: nat, late: nat)
    requires Core(ws, past)
    ensures Core(ws, past.(alerts := alerts, late := late))
  {
  }

  // ---------------------------------------------------------------- objects in order

  lemma ClaimOrder(st: State, ok: bool)
    requires Order(st) && FeedStep(st, Claim(ok)).Some?
    ensures Order(FeedStep(st, Claim(ok)).value)
  {
    var page := Keyset.Page(Claimables(st), st.cursor, 4 * st.width);
    assert forall i :: 0 <= i < |page| ==> st.cursor < page[i];
  }

  lemma SendOrder(st: State)
    requires Order(st) && FeedStep(st, Send).Some?
    ensures Order(FeedStep(st, Send).value)
  {
    var batch := st.feed.batch;
    assert batch[0] in batch;
    forall y | y in batch[1..] ensures batch[0] < y {
      var i :| 0 <= i < |batch[1..]| && batch[1..][i] == y;
      assert batch[i + 1] == y;
    }
    Keyset.Tail(batch);
    forall y | y in Keyset.Elements(st.queue) ensures y < batch[0] {
      assert y in st.queue;
    }
    Keyset.SnocFacts(st.queue, batch[0]);
  }

  lemma FeedOrder(st: State, e: FeedEvent)
    requires Order(st) && FeedStep(st, e).Some?
    ensures Order(FeedStep(st, e).value)
  {
    match e
    case Claim(ok) => ClaimOrder(st, ok);
    case Send => SendOrder(st);
    case _ =>
  }

  lemma TakeOrder(st: State, w: nat)
    requires Order(st) && w < |st.workers| && StartStep(st, w, Take).Some?
    ensures Order(StartStep(st, w, Take).value)
  {
    var q := st.queue;
    Keyset.Tail(q);
    assert q[0] in q;
    forall y | y in q[1..] ensures y in q && q[0] < y {
      var i :| 0 <= i < |q[1..]| && q[1..][i] == y;
      assert q[i + 1] == y;
    }
  }

  ghost predicate FeedAlone(st: State, next: State) {
    next.feed == st.feed && next.cursor == st.cursor && next.queue == st.queue && next.past.popped == st.past.popped
  }

  lemma StartLeavesFeed(st: State, w: nat, e: WorkEvent)
    requires w < |st.workers| && StartStep(st, w, e).Some? && e != Take
    ensures FeedAlone(st, StartStep(st, w, e).value)
  {
  }

  lemma WorkLeavesFeed(st: State, w: nat, e: WorkEvent)
    requires w < |st.workers| && WorkStep(st, w, e).Some?
    ensures FeedAlone(st, WorkStep(st, w, e).value)
  {
  }

  lemma DecideLeavesFeed(st: State, w: nat, e: WorkEvent)
    requires w < |st.workers| && DecideStep(st, w, e).Some?
    ensures FeedAlone(st, DecideStep(st, w, e).value)
  {
  }

  lemma HaltLeavesFeed(st: State, w: nat, e: WorkEvent)
    requires w < |st.workers| && HaltStep(st, w, e).Some?
    ensures FeedAlone(st, HaltStep(st, w, e).value)
  {
  }

  /** Apart from receiving, workers leave the feed, the channel and the received objects alone. */
  lemma WorkerLeavesFeed(st: State, w: nat, e: WorkEvent)
    requires w < |st.workers| && WorkerStep(st, w, e).Some? && e != Take
    ensures FeedAlone(st, WorkerStep(st, w, e).value)
  {
    if e.Begin? || e.Enter? {
      StartLeavesFeed(st, w, e);
    } else if IsWork(e) {
      WorkLeavesFeed(st, w, e);
    } else if e.Decide? || e.Stop? {
      DecideLeavesFeed(st, w, e);
    } else if !e.Write? {
      HaltLeavesFeed(st, w, e);
    }
  }

  lemma OrderStays(st: State, e: Step, next: State)
    requires Order(st) && Next(st, e) == Some(next)
    ensures Order(next)
  {
    match e
    case Interrupt =>
    case Others(_, _) =>
    case Feeder(f) => FeedOrder(st, f);
    case AtWorker(w, f) =>
      if f == Take {
        TakeOrder(st, w);
      } else {
        WorkerLeavesFeed(st, w, f);
      }
  }

  // ---------------------------------------------------------------- each object once

  lemma StartCore(st: State, w: nat, e: WorkEvent)
    requires Order(st) && Core(st.workers, st.past) && w < |st.workers| && StartStep(st, w, e).Some?
    ensures Core(StartStep(st, w, e).value.workers, StartStep(st, w, e).value.past)
  {
    match e
    case Take =>
      assert st.queue[0] in st.queue;
      Received(st.workers, w, st.queue[0], st.past);
    case Begin =>
      Dropped(st.workers, w, st.workers[w].oid, st.past);
      LetThrough(st.workers, w, st.workers[w].oid, st.past);
    case Enter =>
      var o := st.workers[w].oid;
      Abandoned(st.workers, w, o, st.past);
      Onward(st.workers, w, Working(o, false, 0), st.past);
  }

  lemma WorkEffect(st: State, w: nat, e: WorkEvent, next: State)
    requires w < |st.workers| && WorkStep(st, w, e) == Some(next)
    ensures InHand(st.workers[w]) && next.workers == st.workers[w := next.workers[w]]
          && Carries(next.workers[w], st.workers[w].oid)
    ensures next.past == st.past.(late := next.past.late)
  {
  }

  lemma WorkCore(st: State, w: nat, e: WorkEvent, next: State)
    requires Core(st.workers, st.past) && w < |st.workers| && WorkStep(st, w, e) == Some(next)
    ensures Core(next.workers, next.past)
  {
    WorkEffect(st, w, e, next);
    Onward(st.workers, w, next.workers[w], st.past);
    CoreIgnores(next.workers, st.past, st.past.alerts, next.past.late);
  }

  /** A decision releases the object, abandons it, or goes on with it. */
  lemma DecideEffect(st: State, w: nat, e: WorkEvent, next: State)
    requires w < |st.workers| && DecideStep(st, w, e) == Some(next)
    ensures next.workers == st.workers[w := next.workers[w]]
    ensures if st.workers[w].Unsaved? then next.workers[w] == Waiting && next.past == st.past
            else InHand(st.workers[w])
                 && if next.workers[w] == Waiting
                    then next.past == st.past.(skipped := st.past.skipped + {st.workers[w].oid})
                    else Carries(next.workers[w], st.workers[w].oid) && next.past == st.past
  {
  }

  lemma DecideCore(st: State, w: nat, e: WorkEvent, next: State)
    requires Core(st.workers, st.past) && w < |st.workers| && DecideStep(st, w, e) == Some(next)
    ensures Core(next.workers, next.past)
  {
    DecideEffect(st, w, e, next);
    if st.workers[w].Unsaved? {
      LetGo(st.workers, w, st.past);
    } else if next.workers[w] == Waiting {
      Abandoned(st.workers, w, st.workers[w].oid, st.past);
    } else {
      Onward(st.workers, w, next.workers[w], st.past);
    }
  }

  lemma HaltEffect(st: State, w: nat, e: WorkEvent, next: State)
    requires w < |st.workers| && HaltStep(st, w, e) == Some(next)
    ensures InHand(st.workers[w]) && next.workers == st.workers[w := next.workers[w]]
          && Carries(next.workers[w], st.workers[w].oid)
    ensures next.past == st.past.(alerts := next.past.alerts)
  {
  }

  lemma HaltCore(st: State, w: nat, e: WorkEvent, next: State)
    requires Core(st.workers, st.past) && w < |st.workers| && HaltStep(st, w, e) == Some(next)
    ensures Core(next.workers, next.past)
  {
    HaltEffect(st, w, e, next);
    Onward(st.workers, w, next.workers[w], st.past);
    CoreIgnores(next.workers, st.past, next.past.alerts, st.past.late);
  }

  lemma WriteCore(st: State, w: nat, ok: bool, applied: bool)
    requires Core(st.workers, st.past) && w < |st.workers| && WriteStep(st, w, ok, applied).Some?
    ensures Core(WriteStep(st, w, ok, applied).value.workers, WriteStep(st, w, ok, applied).value.past)
  {
    var next := WriteStep(st, w, ok, applied).value;
    Written(st.workers, w, st.workers[w].oid, next.workers[w], st.past, next.past.done);
  }

  lemma WorkerCore(st: State, w: nat, e: WorkEvent)
    requires Order(st) && Core(st.workers, st.past) && w < |st.workers| && WorkerStep(st, w, e).Some?
    ensures Core(WorkerStep(st, w, e).value.workers, WorkerStep(st, w, e).value.past)
  {
    if e.Take? || e.Begin? || e.Enter? {
      StartCore(st, w, e);
    } else if IsWork(e) {
      WorkCore(st, w, e, WorkerStep(st, w, e).value);
    } else if e.Decide? || e.Stop? {
      DecideCore(st, w, e, WorkerStep(st, w, e).value);
    } else if e.Write? {
      WriteCore(st, w, e.ok, e.applied);
    } else {
      HaltCore(st, w, e, WorkerStep(st, w, e).value);
    }
  }

  lemma FeedLeavesWorkers(st: State, e: FeedEvent)
    requires FeedStep(st, e).Some?
    ensures var next := FeedStep(st, e).value;
            next.workers == st.workers && next.past == st.past && next.sys == st.sys && next.halt == st.halt
            && next.width == st.width
  {
  }

  lemma CoreKept(st: State, e: Step, next: State)
    requires Order(st) && Core(st.workers, st.past) && Next(st, e) == Some(next)
    ensures Core(next.workers, next.past)
  {
    match e
    case Interrupt =>
    case Others(_, _) =>
    case Feeder(f) => FeedLeavesWorkers(st, f);
    case AtWorker(w, f) => WorkerCore(st, w, f);
  }

  // ---------------------------------------------------------------- flags and the alarm

  lemma FeedFlags(st: State, e: FeedEvent)
    requires Flags(st) && FeedStep(st, e).Some?
    ensures Flags(FeedStep(st, e).value)
  {
  }

  lemma StartFlags(st: State, w: nat, e: WorkEvent)
    requires Flags(st) && w < |st.workers| && StartStep(st, w, e).Some?
    ensures Flags(StartStep(st, w, e).value)
  {
  }

  lemma WorkFlags(st: State, w: nat, e: WorkEvent)
    requires Flags(st) && w < |st.workers| && WorkStep(st, w, e).Some?
    ensures Flags(WorkStep(st, w, e).value)
  {
  }

  lemma DecideFlags(st: State, w: nat, e: WorkEvent)
    requires Flags(st) && w < |st.workers| && DecideStep(st, w, e).Some?
    ensures Flags(DecideStep(st, w, e).value)
  {
  }

  lemma HaltFlags(st: State, w: nat, e: WorkEvent)
    requires Flags(st) && w < |st.workers| && HaltStep(st, w, e).Some?
    ensures Flags(HaltStep(st, w, e).value)
  {
  }

  lemma FlagsKept(st: State, e: Step, next: State)
    requires Flags(st) && Next(st, e) == Some(next)
    ensures Flags(next)
  {
    match e
    case Interrupt =>
    case Others(_, _) =>
    case Feeder(f) => FeedFlags(st, f);
    case AtWorker(w, f) =>
      if f.Take? || f.Begin? || f.Enter? {
        StartFlags(st, w, f);
      } else if IsWork(f) {
        WorkFlags(st, w, f);
      } else if f.Decide? || f.Stop? {
        DecideFlags(st, w, f);
      } else if !f.Write? {
        HaltFlags(st, w, f);
      }
  }

  /** A worker that is not in the halt moves on without entering it. */
  lemma AlarmUpdate(st: State, next: State, w: nat)
    requires Alarm(st) && w < |st.workers| && !st.workers[w].Alerting?
    requires |next.workers| == |st.workers| && next.workers == st.workers[w := next.workers[w]]
          && !next.workers[w].Alerting?
    requires next.halt == st.halt && next.past.alerts == st.past.alerts && (st.cancelled ==> next.cancelled)
    ensures Alarm(next)
  {
  }

  lemma HaltAlarm(st: State, w: nat, e: WorkEvent, next: State)
    requires Alarm(st) && w < |st.workers| && HaltStep(st, w, e) == Some(next)
    ensures Alarm(next)
  {
    if e.RaiseHalt? && st.halt == Latched {
      AlarmUpdate(st, next, w);
    }
  }

  lemma StartAlarm(st: State, w: nat, e: WorkEvent, next: State)
    requires Alarm(st) && w < |st.workers| && StartStep(st, w, e) == Some(next)
    ensures Alarm(next)
  {
    AlarmUpdate(st, next, w);
  }

  lemma WorkAlarm(st: State, w: nat, e: WorkEvent, next: State)
    requires Alarm(st) && w < |st.workers| && WorkStep(st, w, e) == Some(next)
    ensures Alarm(next)
  {
    AlarmUpdate(st, next, w);
  }

  lemma DecideAlarm(st: State, w: nat, e: WorkEvent, next: State)
    requires Alarm(st) && w < |st.workers| && DecideStep(st, w, e) == Some(next)
    ensures Alarm(next)
  {
    AlarmUpdate(st, next, w);
  }

  lemma WriteAlarm(st: State, w: nat, ok: bool, applied: bool, next: State)
    requires Alarm(st) && w < |st.workers| && WriteStep(st, w, ok, applied) == Some(next)
    ensures Alarm(next)
  {
    AlarmUpdate(st, next, w);
  }

  lemma WorkerAlarm(st: State, w: nat, e: WorkEvent, next: State)
    requires Alarm(st) && w < |st.workers| && WorkerStep(st, w, e) == Some(next)
    ensures Alarm(next)
  {
    if e.Take? || e.Begin? || e.Enter? {
      StartAlarm(st, w, e, next);
    } else if IsWork(e) {
      WorkAlarm(st, w, e, next);
    } else if e.Decide? || e.Stop? {
      DecideAlarm(st, w, e, next);
    } else if e.Write? {
      WriteAlarm(st, w, e.ok, e.applied, next);
    } else {
      HaltAlarm(st, w, e, next);
    }
  }

  lemma AlarmKept(st: State, e: Step, next: State)
    requires Alarm(st) && Next(st, e) == Some(next)
    ensures Alarm(next)
  {
    match e
    case Interrupt =>
    case Others(_, _) =>
    case Feeder(f) => FeedAlarm(st, f);
    case AtWorker(w, f) => WorkerAlarm(st, w, f, next);
  }

  lemma FeedAlarm(st: State, e: FeedEvent)
    requires Alarm(st) && FeedStep(st, e).Some?
    ensures Alarm(FeedStep(st, e).value)
  {
  }

  // ---------------------------------------------------------------- late delete requests

  predicate IsArmed(p: Worker) {
    p.Working? && p.armed
  }

  /** Workers between a passed check and its delete request. */
  function Armed(ws: seq<Worker>): nat {
    if ws == [] then 0 else Armed(ws[..|ws| - 1]) + if IsArmed(ws[|ws| - 1]) then 1 else 0
  }

  lemma {:induction false} ArmedUpdate(ws: seq<Worker>, w: nat, p: Worker)
    requires w < |ws|
    ensures Armed(ws[w := p]) + (if IsArmed(ws[w]) then 1 else 0) == Armed(ws) + if IsArmed(p) then 1 else 0
  {
    var init := ws[..|ws| - 1];
    if w == |ws| - 1 {
      assert ws[w := p][..|ws| - 1] == init;
    } else {
      ArmedUpdate(init, w, p);
      assert ws[w := p][..|ws| - 1] == init[w := p];
    }
  }

  lemma {:induction false} NotAllArmed(ws: seq<Worker>, w: nat)
    requires w < |ws| && !IsArmed(ws[w])
    ensures Armed(ws) <= |ws| - 1
  {
    if w < |ws| - 1 {
      NotAllArmed(ws[..|ws| - 1], w);
    } else {
      AtMostAll(ws[..|ws| - 1]);
    }
  }

  lemma {:induction false} AtMostAll(ws: seq<Worker>)
    ensures Armed(ws) <= |ws|
  {
    if ws != [] {
      AtMostAll(ws[..|ws| - 1]);
    }
  }

  /** After the halt, only requests already past their check can still go out. */
  ghost predicate Late(st: State) {
    && (st.halt == NotHalted ==> st.past.late == 0)
    && (st.halt != NotHalted ==> st.past.late + Armed(st.workers) <= |st.workers| - 1)
  }

  /** Steps that neither arm, nor send, nor halt. */
  lemma LateUpdate(st: State, next: State, w: nat)
    requires Late(st) && w < |st.workers| == |next.workers| && next.workers == st.workers[w := next.workers[w]]
    requires (IsArmed(next.workers[w]) ==> IsArmed(st.workers[w]))
    requires next.past.late == st.past.late && (next.halt == NotHalted <==> st.halt == NotHalted)
    ensures Late(next)
  {
    ArmedUpdate(st.workers, w, next.workers[w]);
  }

  lemma WorkLate(st: State, w: nat, e: WorkEvent, next: State)
    requires Late(st) && Alarm(st) && w < |st.workers| && WorkStep(st, w, e) == Some(next)
    ensures Late(next)
  {
    WorkEffect(st, w, e, next);
    ArmedUpdate(st.workers, w, next.workers[w]);
  }

  lemma HaltLate(st: State, w: nat, e: WorkEvent, next: State)
    requires Late(st) && Alarm(st) && w < |st.workers| && HaltStep(st, w, e) == Some(next)
    ensures Late(next)
  {
    HaltEffect(st, w, e, next);
    ArmedUpdate(st.workers, w, next.workers[w]);
    NotAllArmed(next.workers, w);
  }

  /** One worker moves, unarmed, and the halt and the late requests stay as they are. */
  ghost predicate Unarmed(st: State, w: nat, next: State)
    requires w < |st.workers|
  {
    && |next.workers| == |st.workers| && next.workers == st.workers[w := next.workers[w]] && !IsArmed(next.workers[w])
    && next.past.late == st.past.late && next.halt == st.halt
  }

  lemma StartUnarmed(st: State, w: nat, e: WorkEvent, next: State)
    requires w < |st.workers| && StartStep(st, w, e) == Some(next)
    ensures Unarmed(st, w, next)
  {
  }

  lemma DecideUnarmed(st: State, w: nat, e: WorkEvent, next: State)
    requires w < |st.workers| && DecideStep(st, w, e) == Some(next)
    ensures Unarmed(st, w, next)
  {
  }

  /** The steps of a worker outside its requests and the halt. */
  lemma QuietEffect(st: State, w: nat, e: WorkEvent, next: State)
    requires w < |st.workers| && WorkerStep(st, w, e) == Some(next)
    requires e.Take? || e.Begin? || e.Enter? || e.Decide? || e.Stop? || e.Write?
    ensures Unarmed(st, w, next)
  {
    if e.Take? || e.Begin? || e.Enter? {
      StartUnarmed(st, w, e, next);
    } else if e.Decide? || e.Stop? {
      DecideUnarmed(st, w, e, next);
    }
  }

  lemma LateKept(st: State, e: Step, next: State)
    requires Late(st) && Alarm(st) && Next(st, e) == Some(next)
    ensures Late(next)
  {
    match e
    case Interrupt =>
    case Others(_, _) =>
    case Feeder(f) => FeedLeavesWorkers(st, f);
    case AtWorker(w, f) =>
      if IsWork(f) {
        WorkLate(st, w, f, next);
      } else if f.RaiseHalt? || f.Alert? {
        HaltLate(st, w, f, next);
      } else {
        QuietEffect(st, w, f, next);
        LateUpdate(st, next, w);
      }
  }

  // ---------------------------------------------------------------- results

  /** A write without a recorded completion leaves a mark that the run reports. */
  ghost predicate Marks(st: State) {
    && (forall o :: st.past.writes[o] == 1 ==> o in st.past.done || 0 < st.failed || o in st.unrecorded)
    && (forall o :: o in st.past.done ==> 0 < st.past.writes[o])
  }

  lemma WriteMarks(st: State, w: nat, ok: bool, applied: bool)
    requires Marks(st) && Core(st.workers, st.past) && w < |st.workers| && WriteStep(st, w, ok, applied).Some?
    ensures Marks(WriteStep(st, w, ok, applied).value)
  {
    assert InHand(st.workers[w]);
  }

  ghost predicate MarksAlone(st: State, next: State) {
    && next.past.writes == st.past.writes && next.past.done == st.past.done
    && next.failed == st.failed && next.unrecorded == st.unrecorded
  }

  lemma StartLeavesMarks(st: State, w: nat, e: WorkEvent)
    requires w < |st.workers| && StartStep(st, w, e).Some?
    ensures MarksAlone(st, StartStep(st, w, e).value)
  {
  }

  lemma WorkLeavesMarks(st: State, w: nat, e: WorkEvent)
    requires w < |st.workers| && WorkStep(st, w, e).Some?
    ensures MarksAlone(st, WorkStep(st, w, e).value)
  {
  }

  lemma DecideLeavesMarks(st: State, w: nat, e: WorkEvent)
    requires w < |st.workers| && DecideStep(st, w, e).Some?
    ensures MarksAlone(st, DecideStep(st, w, e).value)
  {
  }

  lemma HaltLeavesMarks(st: State, w: nat, e: WorkEvent)
    requires w < |st.workers| && HaltStep(st, w, e).Some?
    ensures MarksAlone(st, HaltStep(st, w, e).value)
  {
  }

  lemma OthersLeaveMarks(st: State, w: nat, e: WorkEvent, next: State)
    requires w < |st.workers| && WorkerStep(st, w, e) == Some(next) && !e.Write?
    ensures MarksAlone(st, next)
  {
    if e.Take? || e.Begin? || e.Enter? {
      StartLeavesMarks(st, w, e);
    } else if IsWork(e) {
      WorkLeavesMarks(st, w, e);
    } else if e.Decide? || e.Stop? {
      DecideLeavesMarks(st, w, e);
    } else {
      HaltLeavesMarks(st, w, e);
    }
  }

  lemma FeedLeavesMarks(st: State, e: FeedEvent)
    requires FeedStep(st, e).Some?
    ensures FeedStep(st, e).value.failed == st.failed && FeedStep(st, e).value.unrecorded == st.unrecorded
  {
  }

  lemma MarksKept(st: State, e: Step, next: State)
    requires Marks(st) && Core(st.workers, st.past) && Next(st, e) == Some(next)
    ensures Marks(next)
  {
    match e
    case Interrupt =>
    case Others(_, _) =>
    case Feeder(f) =>
      FeedLeavesWorkers(st, f);
      FeedLeavesMarks(st, f);
    case AtWorker(w, f) =>
      if f.Write? {
        WriteMarks(st, w, f.ok, f.applied);
      } else {
        OthersLeaveMarks(st, w, f, next);
      }
  }
}
