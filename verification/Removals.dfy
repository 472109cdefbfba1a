/**
 What the tool may take out of the bucket, over whole histories: pieces of active members of the
 task that is being purged, objects of the sealed list all of them, and nothing else.
 */
module Removals {
  import opened Wrappers
  import opened Ledger
  import opened LedgerInvariants
  import opened System
  import opened SystemInvariants
  import PieceKeys

  /** The event removes the key as a piece of an active member of the task being purged. */
  ghost predicate RemovedAsMember(s: Sys, e: Event, k: string, o: Oid) {
    && s.session.Purging? && e.Purger? && e.purge.Remove? && e.purge.oid == o
    && k in e.purge.confirmed + e.purge.silent && PieceKeys.PieceOf(o, k)
    && 0 < o && Active(s.db, s.session.task, o)
    && s.session.task in s.db.tasks && !s.db.tasks[s.session.task].done
    && Sealed(s.db) && o in s.db.scan
  }

  /** Nothing but a removal takes a key away. */
  lemma OnlyRemoveRemoves(s: Sys, e: Event, next: Sys, k: string)
    requires Apply(s, e) == Some(next) && k in s.store && k !in next.store
    ensures s.session.Purging? && e.Purger? && e.purge.Remove? && e.purge.oid in s.session.work
            && k in e.purge.confirmed + e.purge.silent && PieceKeys.PieceOf(e.purge.oid, k)
  {
  }

  lemma WorkIsListed(s: Sys, o: Oid)
    requires Good(s) && s.session.Purging? && o in s.session.work
    ensures 0 < o && Active(s.db, s.session.task, o) && Sealed(s.db) && o in s.db.scan
            && s.session.task in s.db.tasks && !s.db.tasks[s.session.task].done
  {
    assert (s.session.task, o) in s.db.members;
  }

  lemma RemovalAt(r: Run, m: nat, k: string)
    requires Happened(r) && m < |r.events| && k in r.states[m].store && k !in r.states[m + 1].store
    ensures r.events[m].Purger? && r.events[m].purge.Remove?
            && RemovedAsMember(r.states[m], r.events[m], k, r.events[m].purge.oid)
  {
    AlwaysGood(r, m);
    OnlyRemoveRemoves(r.states[m], r.events[m], r.states[m + 1], k);
    WorkIsListed(r.states[m], r.events[m].purge.oid);
  }

  /**
   Every key that disappears in the course of a history went with a removal of a piece of a
   claimed object: an active member, at that moment, of the unfinished task being purged, and
   an object of the sealed list.
   */
  lemma {:induction false} EveryRemovalIsOfAMember(r: Run, i: nat, n: nat, k: string) returns (m: nat, o: Oid)
    requires Happened(r) && i <= n <= |r.events| && k in r.states[i].store && k !in r.states[n].store
    ensures i <= m < n && RemovedAsMember(r.states[m], r.events[m], k, o)
    decreases n
  {
    if i == n {
      assert false;
    } else if k in r.states[n - 1].store {
      m := n - 1;
      RemovalAt(r, m, k);
      o := r.events[m].purge.oid;
    } else {
      m, o := EveryRemovalIsOfAMember(r, i, n - 1, k);
    }
  }
}
