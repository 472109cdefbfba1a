/**
 What the deletion engine does to storage is what the tool's state machine allows it to do, and
 what it returns is what a worker of the concurrent run may return.
 */
module EngineSteps {
  import opened Wrappers
  import opened Ledger
  import opened Storage
  import opened System
  import Engine
  import PieceKeys
  import Protocol
  import Traffic
  import opened Interrupts

  /** The engine is given the recognizer of the object's own pieces. */
  lemma RecognizesPieces(o: Oid)
    ensures Engine.Recognizes(PieceKeys.IsPieceOf(o), o)
  {
  }

  /**
   The effect of one attempt is one `Remove` event of the running pass: the store it leaves is
   the one the event leaves, and its counters are what the event adds to the attempt.
   */
  lemma AttemptIsRemove(s: Sys, o: Oid, mine: string -> bool, after: map<string, nat>, r: Engine.Removal,
        a: Engine.Attempt)
    requires s.session.Purging? && o in s.session.work && Engine.Recognizes(mine, o)
    requires Engine.Removed(s.store, after, mine, r) && Engine.Counted(s.store, r, a)
    ensures var next := PurgeStep(s, Remove(o, r.Confirmed(), r.silent));
            && next.Some? && next.value.store == after && next.value.db == s.db
            && next.value.session
               == s.session.(work := s.session.work[o := Plus(s.session.work[o], Amount(a.keys, a.bytes))])
  {
    assert r.Confirmed() + r.silent == r.All();
    forall k | k in r.Confirmed() + r.silent ensures PieceKeys.PieceOf(o, k) {
      assert mine(k);
    }
  }

  /** An attempt without an error leaves nothing of the object. */
  lemma ClearedLeavesNothing(store: map<string, nat>, o: Oid)
    requires forall i :: 0 <= i < 2 ==> Listed(store, PieceKeys.Prefixes(o)[i]) == {}
    ensures Residues(store, o) == {}
  {
    assert Under(store, o, 0) == {} && Under(store, o, 1) == {};
  }

  /** Removing pieces of one object leaves what is stored of every other object as it was. */
  lemma OthersUntouched(store: map<string, nat>, gone: set<string>, p: Oid, o: Oid)
    requires p != o && forall k :: k in gone ==> PieceKeys.PieceOf(p, k)
    ensures Residues(store - gone, o) == Residues(store, o)
  {
    forall k | k in Residues(store, o) ensures k !in gone {
      if k in gone {
        PieceKeys.ListedPieces(p, k);
        PieceKeys.PrefixesDisjoint(p, o, k);
      }
    }
  }

  lemma AllOthersUntouched(before: map<string, nat>, after: map<string, nat>, p: Oid, r: Engine.Removal)
    requires Engine.Removed(before, after, PieceKeys.IsPieceOf(p), r)
    ensures forall o :: o != p ==> Residues(after, o) == Residues(before, o)
  {
    forall o | o != p ensures Residues(after, o) == Residues(before, o) {
      OthersUntouched(before, r.All(), p, o);
    }
  }

  /**
   The attempt a worker makes on the object it holds: no error means that nothing of the object
   is left, and whatever happens nothing of any other object is touched. Unless it was refused,
   it is a violation for the run exactly if the chain reports another object than the approved
   one, or a listing shows a key that is none of its pieces.
   */
  method PurgeObject(b: Bucket, ctx: Context, c: Engine.Claimed, head: Option<Engine.ObjectHead>, opt: Engine.Options)
    returns (a: Engine.Attempt, ghost r: Engine.Removal, ghost way: Engine.Way)
    modifies b, ctx
    ensures ctx.refusals == old(ctx.refusals) + if a.err == Some(Engine.Interrupted) then 1 else 0
    ensures Granted(ctx.consents, |old(b.trace)|, |b.trace|)
    ensures b.trace == old(b.trace) + way.Sent()
    ensures Engine.Removed(old(b.contents), b.contents, PieceKeys.IsPieceOf(c.oid), r)
    ensures !opt.dryRun ==> Engine.Counted(old(b.contents), r, a)
    ensures a.err == None && !opt.dryRun ==> Residues(b.contents, c.oid) == {}
    ensures opt.dryRun || head != Some(Engine.ObjectHead(c.oid, opt.bucket, c.status, c.version, c.payload)) ==>
              b.contents == old(b.contents)
    ensures forall o :: o != c.oid ==> Residues(b.contents, o) == Residues(old(b.contents), o)
    ensures !opt.dryRun ==>
              (Protocol.OutcomeOf(a.err) == Protocol.Safety <==>
                 && ctx.refusals == old(ctx.refusals) && head.Some?
                 && (head.value != Engine.ObjectHead(c.oid, opt.bucket, c.status, c.version, c.payload)
                     || ShowsForeign(way.Clearing(), c.oid)))
  {
    RecognizesPieces(c.oid);
    ghost var mine := PieceKeys.IsPieceOf(c.oid);
    a, r, way := Engine.ProcessOne(b, ctx, c, head, PieceKeys.IsPieceOf(c.oid), PieceKeys.Prefixes(c.oid), opt);
    AllOthersUntouched(old(b.contents), b.contents, c.oid, r);
    if a.err == None && !opt.dryRun {
      ClearedLeavesNothing(b.contents, c.oid);
    }
    if !opt.dryRun {
      OutcomeIsExact(way, c, head, opt, a.err);
    }
  }

  /** Some answered listing showed a key that is no piece of the object. */
  ghost predicate ShowsForeign(sent: seq<Request>, o: Oid) {
    exists i, k :: 0 <= i < |sent| && sent[i].List? && k in sent[i].keys && !PieceKeys.PieceOf(o, k)
  }

  lemma ForeignIsUntidy(sent: seq<Request>, o: Oid)
    ensures ShowsForeign(sent, o) <==> !Traffic.Tidy(sent, PieceKeys.IsPieceOf(o))
  {
    if !Traffic.Tidy(sent, PieceKeys.IsPieceOf(o)) {
      var i :| 0 <= i < |sent| && sent[i].List? && !Traffic.AllMine(sent[i].keys, PieceKeys.IsPieceOf(o));
      var k :| k in sent[i].keys && !PieceKeys.PieceOf(o, k);
    }
    if i, k :| 0 <= i < |sent| && sent[i].List? && k in sent[i].keys && !PieceKeys.PieceOf(o, k) {
      assert !Traffic.AllMine(sent[i].keys, PieceKeys.IsPieceOf(o));
    }
  }

  lemma OutcomeIsExact(way: Engine.Way, c: Engine.Claimed, head: Option<Engine.ObjectHead>, opt: Engine.Options,
                       err: Option<Engine.Failure>)
    requires !opt.dryRun
    requires Engine.AttemptTold(way, c, head, PieceKeys.IsPieceOf(c.oid), PieceKeys.Prefixes(c.oid), opt, err)
    ensures Protocol.OutcomeOf(err) == Protocol.Safety <==>
              && err != Some(Engine.Interrupted) && head.Some?
              && (head.value != Engine.ObjectHead(c.oid, opt.bucket, c.status, c.version, c.payload)
                  || ShowsForeign(way.Clearing(), c.oid))
    ensures Protocol.OutcomeOf(err) == Protocol.Success <==> err == None
  {
    ForeignIsUntidy(way.Clearing(), c.oid);
    if err != Some(Engine.Interrupted) {
      Engine.ViolationExactly(way, c, head, PieceKeys.IsPieceOf(c.oid), PieceKeys.Prefixes(c.oid), opt, err);
    }
  }

  /**
   The attempt's result as the worker's last steps: without an error its two re-checks and its
   return with success are steps the run allows; an error is an ordinary or a safety outcome.
   */
  lemma AttemptReturns(st: Protocol.State, w: nat, o: Oid, err: Option<Engine.Failure>)
    requires w < |st.workers| && st.workers[w] == Protocol.Working(o, false, 0)
    requires err == None ==> Residues(st.sys.store, o) == {}
    ensures err.Some? ==>
              Protocol.WorkStep(st, w, Protocol.Return(err))
              == Some(Protocol.At(st, w, Protocol.Returned(o, if Engine.IsSafety(err.value) then Protocol.Safety
                                                              else Protocol.Ordinary)))
    ensures err == None ==>
              var first := Protocol.At(st, w, Protocol.Working(o, false, 1));
              var second := Protocol.At(st, w, Protocol.Working(o, false, 2));
              && Protocol.WorkStep(st, w, Protocol.Recheck) == Some(first)
              && Protocol.WorkStep(first, w, Protocol.Recheck) == Some(second)
              && Protocol.WorkStep(second, w, Protocol.Return(None))
                 == Some(Protocol.At(st, w, Protocol.Returned(o, Protocol.Success)))
  {
    if err == None {
      assert Under(st.sys.store, o, 0) == {} && Under(st.sys.store, o, 1) == {};
      var ws := st.workers;
      var first, second := Protocol.Working(o, false, 1), Protocol.Working(o, false, 2);
      var returned := Protocol.Returned(o, Protocol.Success);
      assert ws[w := first][w := second] == ws[w := second];
      assert ws[w := second][w := returned] == ws[w := returned];
    }
  }
}
