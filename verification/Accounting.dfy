/**
 The cumulative counters of one object over any history: crashes, repeated passes, retries,
 and other objects in between. What the tables record, what a running attempt has not yet
 recorded, what was lost track of, and what is still stored always add up to what was there
 to begin with and what others put in since.
 */
module Accounting {
  import opened Wrappers
  import opened Ledger
  import LedgerInvariants
  import opened Storage
  import opened System
  import PieceKeys

  const NOTHING := Amount(0, 0)

  /** The cumulative counters of the object in purge_progress. */
  function Recorded(db: Db, o: Oid): Amount {
    if o in db.progress then Amount(db.progress[o].keys, db.progress[o].bytes) else NOTHING
  }

  /** What the running attempt on the object has deleted so far. */
  function InFlight(c: Session, o: Oid): Amount {
    if c.Purging? && o in c.work then c.work[o] else NOTHING
  }

  /** What is stored under the two prefixes of the object. */
  ghost function Stored(store: map<string, nat>, o: Oid): Amount {
    Size(store, Residues(store, o))
  }

  /** What this step loses track of: an attempt that dies, and deletions nobody confirmed. */
  ghost function Lost(s: Sys, e: Event, o: Oid): Amount {
    match e
    case Exit => InFlight(s.session, o)
    case Purger(Drop(p)) => if p == o then InFlight(s.session, o) else NOTHING
    case Purger(Remove(p, _, silent)) => if p == o && silent <= s.store.Keys then Size(s.store, silent) else NOTHING
    case _ => NOTHING
  }

  /** What this step puts under the prefixes of the object. */
  function Supplied(e: Event, o: Oid): Amount {
    if e.WriteBack? && PieceKeys.Under(o, e.key) then Amount(1, e.size) else NOTHING
  }

  /** Everything the program and the store know about the object. */
  ghost function Known(s: Sys, o: Oid): Amount {
    Plus(Plus(Recorded(s.db, o), InFlight(s.session, o)), Stored(s.store, o))
  }

  lemma Neutral(a: Amount)
    ensures Plus(NOTHING, a) == a && Plus(a, NOTHING) == a
  {
    PlusNothing(a);
  }

  // ---------------------------------------------------------------- storage

  lemma ResidueIsListed(store: map<string, nat>, o: Oid, k: string)
    ensures k in Residues(store, o) <==> k in store && PieceKeys.Under(o, k)
  {
  }

  lemma RestIsUnchanged(store: map<string, nat>, gone: set<string>, o: Oid)
    ensures Residues(store - gone, o) == Residues(store, o) - gone
    ensures Stored(store - gone, o) == Size(store, Residues(store, o) - gone)
  {
    SizeAgrees(store, store - gone, Residues(store, o) - gone);
  }

  lemma Complement(store: map<string, nat>, all: set<string>, gone: set<string>)
    requires gone <= all <= store.Keys
    ensures Size(store, all) == Plus(Size(store, all - gone), Size(store, gone))
  {
    assert (all - gone) + gone == all;
    SizeSplit(store, all - gone, gone);
  }

  lemma TakenAway(store: map<string, nat>, all: set<string>, confirmed: set<string>, silent: set<string>)
    requires confirmed + silent <= all <= store.Keys && confirmed !! silent
    ensures Size(store, all)
         == Plus(Size(store, all - (confirmed + silent)), Plus(Size(store, confirmed), Size(store, silent)))
  {
    SizeSplit(store, confirmed, silent);
    Complement(store, all, confirmed + silent);
  }

  lemma PiecesAreListed(store: map<string, nat>, gone: set<string>, o: Oid)
    requires gone <= store.Keys && forall k :: k in gone ==> PieceKeys.PieceOf(o, k)
    ensures gone <= Residues(store, o)
  {
    forall k | k in gone ensures k in Residues(store, o) {
      PieceKeys.ListedPieces(o, k);
      ResidueIsListed(store, o, k);
    }
  }

  /** Deleting pieces of the object takes exactly their sizes away from it. */
  lemma RemovalFromObject(store: map<string, nat>, confirmed: set<string>, silent: set<string>, o: Oid)
    requires confirmed + silent <= store.Keys && confirmed !! silent
    requires forall k :: k in confirmed + silent ==> PieceKeys.PieceOf(o, k)
    ensures Stored(store, o)
         == Plus(Stored(store - (confirmed + silent), o), Plus(Size(store, confirmed), Size(store, silent)))
  {
    PiecesAreListed(store, confirmed + silent, o);
    RestIsUnchanged(store, confirmed + silent, o);
    TakenAway(store, Residues(store, o), confirmed, silent);
  }

  /** Deleting pieces of another object changes nothing for this one. */
  lemma RemovalElsewhere(store: map<string, nat>, gone: set<string>, p: Oid, o: Oid)
    requires p != o && forall k :: k in gone ==> PieceKeys.PieceOf(p, k)
    ensures Stored(store - gone, o) == Stored(store, o)
  {
    var all := Residues(store, o);
    forall k | k in gone ensures k !in all {
      PieceKeys.ListedPieces(p, k);
      ResidueIsListed(store, o, k);
      if PieceKeys.Under(o, k) {
        PieceKeys.PrefixesDisjoint(p, o, k);
      }
    }
    RestIsUnchanged(store, gone, o);
    assert all - gone == all;
  }

  lemma OneMoreResidue(store: map<string, nat>, key: string, size: nat, o: Oid)
    ensures Residues(store[key := size], o) == Residues(store, o) + if PieceKeys.Under(o, key) then {key} else {}
  {
    forall k
      ensures k in Residues(store[key := size], o) <==>
                k in Residues(store, o) || (k == key && PieceKeys.Under(o, key))
    {
      ResidueIsListed(store[key := size], o, k);
      ResidueIsListed(store, o, k);
    }
  }

  lemma SizeOfOneMore(store: map<string, nat>, key: string, size: nat, all: set<string>)
    requires all <= store.Keys && key !in store
    ensures Size(store[key := size], all) == Size(store, all)
    ensures Size(store[key := size], all + {key}) == Plus(Size(store, all), Amount(1, size))
  {
    var after := store[key := size];
    SizeAgrees(store, after, all);
    SizeRemove(after, all + {key}, key);
    assert all + {key} - {key} == all;
  }

  lemma Arrival(store: map<string, nat>, key: string, size: nat, o: Oid)
    requires key !in store
    ensures Stored(store[key := size], o) == Plus(Stored(store, o), Supplied(WriteBack(key, size), o))
  {
    OneMoreResidue(store, key, size, o);
    ArrivalSize(store, key, size, Residues(store, o), PieceKeys.Under(o, key));
  }

  lemma ArrivalSize(store: map<string, nat>, key: string, size: nat, all: set<string>, listed: bool)
    requires all <= store.Keys && key !in store
    ensures Size(store[key := size], all + if listed then {key} else {})
         == Plus(Size(store, all), if listed then Amount(1, size) else NOTHING)
  {
    SizeOfOneMore(store, key, size, all);
    Neutral(Size(store, all));
    assert all + {} == all;
  }

  // ---------------------------------------------------------------- one step

  /** The step leaves storage alone and neither has nor starts work on any object. */
  predicate Quiet(s: Sys, next: Sys) {
    next.store == s.store && !s.session.Purging? && (next.session.Purging? ==> next.session.work == map[])
  }

  lemma QuietBalance(s: Sys, next: Sys, o: Oid)
    requires Quiet(s, next) && Recorded(next.db, o) == Recorded(s.db, o)
    ensures Known(next, o) == Known(s, o)
  {
  }

  lemma ScanIsQuiet(s: Sys, e: ScanEvent)
    requires ScanStep(s, e).Some?
    ensures Quiet(s, ScanStep(s, e).value) && ScanStep(s, e).value.db.progress == s.db.progress
  {
  }

  lemma TaskIsQuiet(s: Sys, e: TaskEvent)
    requires TaskStep(s, e).Some?
    ensures Quiet(s, TaskStep(s, e).value)
  {
  }

  lemma VerifyIsQuiet(s: Sys, e: VerifyEvent)
    requires VerifyStep(s, e).Some?
    ensures Quiet(s, VerifyStep(s, e).value) && VerifyStep(s, e).value.db.progress == s.db.progress
  {
  }

  lemma CreateKeepsCounters(db: Db, target: nat, max: int, retry: bool, id: TaskId, o: Oid)
    ensures var r := Create(db, target, max, retry, id);
            r.Ok? && r.value.Fresh? ==> Recorded(r.value.db, o) == Recorded(db, o)
  {
    LedgerInvariants.CreateAllots(db, target, max, retry, id);
    if 0 < max {
      LedgerInvariants.AllotSelects(db, target, max, retry, id);
    }
  }

  lemma BeginPurgeKeepsCounters(db: Db, t: TaskId, o: Oid)
    ensures BeginPurge(db, t).Ok? ==> Recorded(BeginPurge(db, t).value, o) == Recorded(db, o)
  {
  }

  lemma BeginVerifyKeepsCounters(db: Db, t: TaskId, restart: bool)
    ensures BeginVerify(db, t, restart).Ok? ==> BeginVerify(db, t, restart).value.progress == db.progress
  {
  }

  lemma DeferKeepsCounters(db: Db, t: TaskId, o: Oid, reason: string)
    ensures Defer(db, t, o, reason).Ok? ==> Defer(db, t, o, reason).value.progress == db.progress
  {
  }

  lemma TaskCounters(s: Sys, e: TaskEvent, o: Oid)
    requires TaskStep(s, e).Some?
    ensures Recorded(TaskStep(s, e).value.db, o) == Recorded(s.db, o)
  {
    match e
    case CreateTask(target, max, retry, id) => CreateKeepsCounters(s.db, target, max, retry, id, o);
    case DeferOid(id, p, reason) => DeferKeepsCounters(s.db, ResolveAdmin(s.db, id).value, p, reason);
    case StartPurge(id) => BeginPurgeKeepsCounters(s.db, ResolvePurge(s.db, id).value, o);
    case StartVerify(id, restart) => BeginVerifyKeepsCounters(s.db, ResolveVerify(s.db, id).value, restart);
    case _ =>
  }

  /** A recorded result, success or failure, moves the attempt's counters into the table. */
  lemma RecordBalance(s: Sys, e: PurgeEvent, o: Oid)
    requires PurgeStep(s, e).Some? && (e.Finish? || e.GiveUp?)
    ensures Known(PurgeStep(s, e).value, o) == Known(s, o)
  {
  }

  lemma RemoveEffect(s: Sys, e: PurgeEvent, next: Sys)
    requires PurgeStep(s, e) == Some(next) && e.Remove?
    ensures var gone := e.confirmed + e.silent;
            && gone <= s.store.Keys && e.confirmed !! e.silent
            && (forall k :: k in gone ==> PieceKeys.PieceOf(e.oid, k))
            && next.store == s.store - gone && next.db == s.db && e.oid in s.session.work
            && next.session
               == s.session.(work := s.session.work[e.oid := Plus(s.session.work[e.oid], Size(s.store, e.confirmed))])
  {
  }

  lemma Moved(recorded: Amount, flying: Amount, stored: Amount, confirmed: Amount, silent: Amount, rest: Amount)
    requires stored == Plus(rest, Plus(confirmed, silent))
    ensures Plus(Plus(Plus(recorded, Plus(flying, confirmed)), rest), silent) == Plus(Plus(recorded, flying), stored)
  {
  }

  /** What the running attempt on each object has after deleting keys of one of them. */
  lemma FlightAfterRemoval(s: Sys, e: PurgeEvent, next: Sys, o: Oid)
    requires PurgeStep(s, e) == Some(next) && e.Remove?
    ensures next.db == s.db
    ensures o == e.oid ==> InFlight(next.session, o) == Plus(InFlight(s.session, o), Size(s.store, e.confirmed))
    ensures o != e.oid ==> InFlight(next.session, o) == InFlight(s.session, o)
  {
    RemoveEffect(s, e, next);
  }

  lemma StoreAfterRemoval(s: Sys, e: PurgeEvent, next: Sys, o: Oid)
    requires PurgeStep(s, e) == Some(next) && e.Remove?
    ensures e.silent <= s.store.Keys && e.confirmed <= s.store.Keys
    ensures o == e.oid ==>
              Stored(s.store, o)
              == Plus(Stored(next.store, o), Plus(Size(s.store, e.confirmed), Size(s.store, e.silent)))
    ensures o != e.oid ==> Stored(next.store, o) == Stored(s.store, o)
  {
    RemoveEffect(s, e, next);
    if o == e.oid {
      RemovalFromObject(s.store, e.confirmed, e.silent, o);
    } else {
      RemovalElsewhere(s.store, e.confirmed + e.silent, e.oid, o);
    }
  }

  lemma LostByRemoval(s: Sys, e: PurgeEvent, o: Oid)
    requires e.Remove? && e.silent <= s.store.Keys
    ensures Lost(s, Purger(e), o) == if o == e.oid then Size(s.store, e.silent) else NOTHING
  {
  }

  lemma OwnRemoval(s: Sys, e: PurgeEvent, next: Sys)
    requires PurgeStep(s, e) == Some(next) && e.Remove?
    ensures Plus(Known(next, e.oid), Lost(s, Purger(e), e.oid)) == Known(s, e.oid)
  {
    var o := e.oid;
    FlightAfterRemoval(s, e, next, o);
    StoreAfterRemoval(s, e, next, o);
    LostByRemoval(s, e, o);
    Moved(Recorded(s.db, o), InFlight(s.session, o), Stored(s.store, o),
          Size(s.store, e.confirmed), Size(s.store, e.silent), Stored(next.store, o));
  }

  lemma OtherRemoval(s: Sys, e: PurgeEvent, next: Sys, o: Oid)
    requires PurgeStep(s, e) == Some(next) && e.Remove? && o != e.oid
    ensures Plus(Known(next, o), Lost(s, Purger(e), o)) == Known(s, o)
  {
    FlightAfterRemoval(s, e, next, o);
    StoreAfterRemoval(s, e, next, o);
    LostByRemoval(s, e, o);
    Dropped(Recorded(s.db, o), InFlight(s.session, o), InFlight(next.session, o), NOTHING, Stored(s.store, o));
  }

  lemma OtherPurgeEffect(s: Sys, e: PurgeEvent, next: Sys, o: Oid)
    requires PurgeStep(s, e) == Some(next) && !e.Remove? && !e.Finish? && !e.GiveUp?
    ensures next.store == s.store && next.db.progress == s.db.progress
    ensures Lost(s, Purger(e), o) == NOTHING ==> InFlight(s.session, o) == InFlight(next.session, o)
    ensures Lost(s, Purger(e), o) != NOTHING ==>
              InFlight(s.session, o) == Lost(s, Purger(e), o) && InFlight(next.session, o) == NOTHING
  {
  }

  lemma Dropped(recorded: Amount, before: Amount, after: Amount, lost: Amount, stored: Amount)
    requires if lost == NOTHING then before == after else before == lost && after == NOTHING
    ensures Plus(Plus(Plus(recorded, after), stored), lost) == Plus(Plus(recorded, before), stored)
  {
  }

  lemma OtherPurgeBalance(s: Sys, e: PurgeEvent, next: Sys, o: Oid)
    requires PurgeStep(s, e) == Some(next) && !e.Remove? && !e.Finish? && !e.GiveUp?
    ensures Plus(Known(next, o), Lost(s, Purger(e), o)) == Known(s, o)
  {
    OtherPurgeEffect(s, e, next, o);
    Dropped(Recorded(s.db, o), InFlight(s.session, o), InFlight(next.session, o), Lost(s, Purger(e), o),
            Stored(s.store, o));
  }

  /** Recording a result loses nothing. */
  lemma NothingLost(s: Sys, e: PurgeEvent, o: Oid)
    requires e.Finish? || e.GiveUp?
    ensures Lost(s, Purger(e), o) == NOTHING
  {
  }

  lemma RecordedBalance(s: Sys, e: PurgeEvent, next: Sys, o: Oid)
    requires PurgeStep(s, e) == Some(next) && (e.Finish? || e.GiveUp?)
    ensures Plus(Known(next, o), Lost(s, Purger(e), o)) == Known(s, o)
  {
    RecordBalance(s, e, o);
    NothingLost(s, e, o);
    Neutral(Known(s, o));
  }

  lemma PurgeBalance(s: Sys, e: PurgeEvent, next: Sys, o: Oid)
    requires PurgeStep(s, e) == Some(next)
    ensures Plus(Known(next, o), Lost(s, Purger(e), o)) == Known(s, o)
  {
    match e
    case Remove(p, _, _) =>
      if p == o {
        OwnRemoval(s, e, next);
      } else {
        OtherRemoval(s, e, next, o);
      }
    case Finish(_) => RecordedBalance(s, e, next, o);
    case GiveUp(_) => RecordedBalance(s, e, next, o);
    case _ => OtherPurgeBalance(s, e, next, o);
  }

  /** One step: known before and supplied = known after and lost. */
  lemma StepBalance(s: Sys, e: Event, next: Sys, o: Oid)
    requires Apply(s, e) == Some(next)
    ensures Plus(Known(next, o), Lost(s, e, o)) == Plus(Known(s, o), Supplied(e, o))
  {
    match e
    case Open(b) =>
    case Exit =>
    case WriteBack(key, size) => Arrival(s.store, key, size, o);
    case Scanner(scan) =>
      ScanIsQuiet(s, scan);
      QuietBalance(s, next, o);
    case Tasks(task) =>
      TaskIsQuiet(s, task);
      TaskCounters(s, task, o);
      QuietBalance(s, next, o);
    case Purger(purge) =>
      PurgeBalance(s, purge, next, o);
      Neutral(Known(s, o));
    case Verifier(verify) =>
      VerifyIsQuiet(s, verify);
      QuietBalance(s, next, o);
  }

  // ---------------------------------------------------------------- whole histories

  ghost function AllLost(r: Run, n: nat, o: Oid): Amount
    requires n <= |r.events| && |r.states| == |r.events| + 1
  {
    if n == 0 then NOTHING else Plus(AllLost(r, n - 1, o), Lost(r.states[n - 1], r.events[n - 1], o))
  }

  function AllSupplied(r: Run, n: nat, o: Oid): Amount
    requires n <= |r.events|
  {
    if n == 0 then NOTHING else Plus(AllSupplied(r, n - 1, o), Supplied(r.events[n - 1], o))
  }

  lemma BalanceAt(r: Run, n: nat, o: Oid)
    requires Happened(r) && n < |r.events|
    ensures Plus(Known(r.states[n + 1], o), Lost(r.states[n], r.events[n], o))
         == Plus(Known(r.states[n], o), Supplied(r.events[n], o))
  {
    StepBalance(r.states[n], r.events[n], r.states[n + 1], o);
  }

  lemma NothingYet(s: Sys, o: Oid)
    requires Initial(s)
    ensures Recorded(s.db, o) == NOTHING && InFlight(s.session, o) == NOTHING
  {
  }

  lemma Alone(a: Amount)
    ensures Plus(Plus(NOTHING, NOTHING), a) == a
  {
    PlusNothing(NOTHING);
    PlusNothing(a);
  }

  lemma StartsUnknown(s: Sys, o: Oid)
    requires Initial(s)
    ensures Known(s, o) == Stored(s.store, o)
  {
    NothingYet(s, o);
    Alone(Stored(s.store, o));
  }

  lemma BalancedAtStart(r: Run, o: Oid)
    requires Happened(r)
    ensures Plus(Known(r.states[0], o), AllLost(r, 0, o))
         == Plus(Stored(r.states[0].store, o), AllSupplied(r, 0, o))
  {
    StartsUnknown(r.states[0], o);
  }

  lemma Chained(start: Amount, known: Amount, lost: Amount, supplied: Amount, later: Amount, loss: Amount,
                supply: Amount)
    requires Plus(known, lost) == Plus(start, supplied) && Plus(later, loss) == Plus(known, supply)
    ensures Plus(later, Plus(lost, loss)) == Plus(start, Plus(supplied, supply))
  {
  }

  lemma BalancedNext(r: Run, n: nat, o: Oid, start: Amount)
    requires Happened(r) && n < |r.events|
    requires Plus(Known(r.states[n], o), AllLost(r, n, o)) == Plus(start, AllSupplied(r, n, o))
    ensures Plus(Known(r.states[n + 1], o), AllLost(r, n + 1, o)) == Plus(start, AllSupplied(r, n + 1, o))
  {
    BalanceAt(r, n, o);
    Chained(start, Known(r.states[n], o), AllLost(r, n, o), AllSupplied(r, n, o),
            Known(r.states[n + 1], o), Lost(r.states[n], r.events[n], o), Supplied(r.events[n], o));
  }

  /** In every history, for every object: known + lost = initially stored + supplied since. */
  lemma {:induction false} AlwaysBalanced(r: Run, n: nat, o: Oid)
    requires Happened(r) && n <= |r.events|
    ensures Plus(Known(r.states[n], o), AllLost(r, n, o))
         == Plus(Stored(r.states[0].store, o), AllSupplied(r, n, o))
    decreases n
  {
    if n == 0 {
      BalancedAtStart(r, o);
    } else {
      AlwaysBalanced(r, n - 1, o);
      BalancedNext(r, n - 1, o, Stored(r.states[0].store, o));
    }
  }

  predicate NoMore(a: Amount, b: Amount) {
    a.keys <= b.keys && a.bytes <= b.bytes
  }

  /**
   The recorded counters never claim more than was there: with what is still stored they stay
   within what was stored at first and supplied since. Between commands they are exact if and
   only if no attempt was cut off before its result was written and no request deleted keys
   without confirming them.
   */
  lemma CountersAreHonest(r: Run, n: nat, o: Oid)
    requires Happened(r) && n <= |r.events|
    ensures var told := Plus(Recorded(r.states[n].db, o), Stored(r.states[n].store, o));
            var truth := Plus(Stored(r.states[0].store, o), AllSupplied(r, n, o));
            NoMore(told, truth)
            && (!r.states[n].session.Purging? ==> (told == truth <==> AllLost(r, n, o) == NOTHING))
  {
    AlwaysBalanced(r, n, o);
    Compare(Recorded(r.states[n].db, o), InFlight(r.states[n].session, o), Stored(r.states[n].store, o),
            AllLost(r, n, o),
            Plus(Stored(r.states[0].store, o), AllSupplied(r, n, o)));
  }

  lemma Compare(recorded: Amount, flying: Amount, stored: Amount, lost: Amount, truth: Amount)
    requires Plus(Plus(Plus(recorded, flying), stored), lost) == truth
    ensures NoMore(Plus(recorded, stored), truth)
    ensures flying == NOTHING ==> (Plus(recorded, stored) == truth <==> lost == NOTHING)
  {
  }
}
