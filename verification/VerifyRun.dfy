/**
 The verification run (internal/verify): page through the members that have not passed, check
 both prefixes of each with bounded retries, and record one result each. Recording changes the
 very set that is being paged, and the run still checks every pending member exactly once.
 */
module VerifyRun {
  import opened Wrappers
  import opened Ledger
  import opened LedgerInvariants
  import opened LedgerTheorems
  import opened Storage
  import System
  import Keyset
  import PieceKeys
  import opened ProgressDb
  import opened Interrupts

  type Reply = System.Reply

  // ---------------------------------------------------------------- what is asked

  /** An answer is true of what the prefix lists. */
  ghost predicate True(store: map<string, nat>, prefix: string, reply: Reply) {
    && (reply == System.Empty ==> Listed(store, prefix) == {})
    && (reply == System.NonEmpty ==> Listed(store, prefix) != {})
  }

  /** The requests of one emptiness check: failed listings of the prefix, ended by an answer or not answered at all. */
  ghost predicate Attempt(sent: seq<Request>, prefix: string, retries: nat, reply: Reply) {
    && |sent| <= retries + 1
    && (forall i :: 0 <= i < |sent| - 1 ==> sent[i] == ListError(prefix))
    && match reply
       case Unanswered => sent == [] || sent[|sent| - 1] == ListError(prefix)
       case Empty => sent != [] && sent[|sent| - 1] == Request.List(prefix, [])
       case NonEmpty =>
         sent != [] && sent[|sent| - 1].List? && sent[|sent| - 1].prefix == prefix && sent[|sent| - 1].keys != []
  }

  /** One member that was examined: the requests for each of its prefixes and the replies they got. */
  datatype Examined = Examined(oid: Oid, parts: seq<seq<Request>>, replies: seq<Reply>)

  /** Both prefixes of the member were asked about, each with its retries, and nothing else was sent. */
  ghost predicate Faithful(x: Examined, store: map<string, nat>, retries: nat) {
    && |x.parts| == 2 && |x.replies| == 2
    && forall i :: 0 <= i < 2 ==>
         && Attempt(x.parts[i], PieceKeys.Prefixes(x.oid)[i], retries, x.replies[i])
         && True(store, PieceKeys.Prefixes(x.oid)[i], x.replies[i])
  }

  ghost predicate AllFaithful(asked: seq<Examined>, store: map<string, nat>, retries: nat) {
    forall x :: x in asked ==> Faithful(x, store, retries)
  }

  /** Everything sent for some members, member by member. */
  function Sent(asked: seq<Examined>): seq<Request> {
    if asked == [] then [] else Sent(asked[..|asked| - 1]) + Flat(asked[|asked| - 1].parts)
  }

  function OidsAsked(asked: seq<Examined>): (q: seq<Oid>)
    ensures |q| == |asked| && forall i :: 0 <= i < |q| ==> q[i] == asked[i].oid
  {
    seq(|asked|, i requires 0 <= i < |asked| => asked[i].oid)
  }

  lemma SentSnoc(asked: seq<Examined>, x: Examined)
    ensures Sent(asked + [x]) == Sent(asked) + Flat(x.parts)
    ensures OidsAsked(asked + [x]) == OidsAsked(asked) + [x.oid]
  {
    assert (asked + [x])[..|asked|] == asked;
  }

  lemma {:induction false} SentFrom(asked: seq<Examined>, q: Request) returns (i: nat)
    requires q in Sent(asked)
    ensures i < |asked| && q in Flat(asked[i].parts)
  {
    var n := |asked| - 1;
    if q in Flat(asked[n].parts) {
      i := n;
    } else {
      i := SentFrom(asked[..n], q);
    }
  }

  lemma PartRequests(x: Examined, store: map<string, nat>, retries: nat, q: Request)
    requires Faithful(x, store, retries) && q in Flat(x.parts)
    ensures !q.Delete? && q.prefix in PieceKeys.Prefixes(x.oid)
  {
    assert x.parts[..2][..1] == [x.parts[0]] && x.parts[..2] == x.parts;
    assert Flat(x.parts) == Flat([x.parts[0]]) + x.parts[1];
    FlatSnoc([], x.parts[0]);
    var i := if q in x.parts[0] then 0 else 1;
    var j :| 0 <= j < |x.parts[i]| && x.parts[i][j] == q;
    assert q.prefix == PieceKeys.Prefixes(x.oid)[i];
  }

  /** Every request is a listing under a prefix of an examined member, so no other object is ever asked about. */
  lemma OnlyOwnListings(asked: seq<Examined>, store: map<string, nat>, retries: nat, q: Request)
    requires AllFaithful(asked, store, retries) && q in Sent(asked)
    ensures !q.Delete?
    ensures forall o :: q.prefix in PieceKeys.Prefixes(o) ==> o in OidsAsked(asked)
  {
    var i := SentFrom(asked, q);
    PartRequests(asked[i], store, retries, q);
    forall o | q.prefix in PieceKeys.Prefixes(o) ensures o in OidsAsked(asked) {
      PieceKeys.PrefixesDisjoint(asked[i].oid, o, q.prefix);
      assert OidsAsked(asked)[i] == o;
    }
  }

  // ---------------------------------------------------------------- one member

  /**
   One emptiness check with its retries: an answer is true, and a check without an answer was
   interrupted or failed on every attempt.
   */
  method Retry(b: Bucket, ctx: Context, prefix: string, retries: nat)
    returns (reply: Reply, interrupted: bool, ghost sent: seq<Request>)
    modifies b`trace, ctx
    ensures old(ctx.consents) <= ctx.consents && Granted(ctx.consents, |old(b.trace)|, |b.trace|)
    ensures ctx.refusals == old(ctx.refusals) + if interrupted then 1 else 0
    ensures True(b.contents, prefix, reply)
    ensures b.trace == old(b.trace) + sent && Attempt(sent, prefix, retries, reply)
    ensures reply == System.Unanswered && !interrupted ==> |sent| == retries + 1
    ensures interrupted ==> reply == System.Unanswered
  {
    var attempt := 0;
    sent := [];
    while attempt <= retries
      invariant b.trace == old(b.trace) + sent && |sent| == attempt <= retries + 1
      invariant ctx.refusals == old(ctx.refusals)
      invariant old(ctx.consents) <= ctx.consents && Granted(ctx.consents, |old(b.trace)|, |b.trace|)
      invariant forall i :: 0 <= i < |sent| ==> sent[i] == ListError(prefix)
    {
      var up := ctx.Proceed(|b.trace|);
      if !up {
        return System.Unanswered, true, sent;
      }
      ghost var was := b.trace;
      var empty := b.Empty(prefix);
      if empty.Some? {
        ghost var keys :| b.trace == was + [Request.List(prefix, keys)] && (empty.value <==> keys == []);
        return if empty.value then System.Empty else System.NonEmpty, false, sent + [Request.List(prefix, keys)];
      }
      sent := sent + [ListError(prefix)];
      up := ctx.Proceed(|b.trace|);
      if !up {
        return System.Unanswered, true, sent;
      }
      attempt := attempt + 1;
    }
    return System.Unanswered, false, sent;
  }

  /** checkObject: residue under either prefix outweighs a failed check, which outweighs a pass. */
  method CheckObject(b: Bucket, ctx: Context, prefixes: seq<string>, retries: nat)
    returns (check: Check, ghost parts: seq<seq<Request>>, ghost replies: seq<Reply>)
    requires |prefixes| == 2
    modifies b`trace, ctx
    ensures old(ctx.consents) <= ctx.consents && Granted(ctx.consents, |old(b.trace)|, |b.trace|)
    ensures old(ctx.refusals) <= ctx.refusals
    ensures ctx.refusals == old(ctx.refusals) ==> NoneGivenUp(parts, replies, retries)
    ensures |parts| == 2 && |replies| == 2 && check == System.Verdict(replies)
    ensures forall i :: 0 <= i < 2 ==>
              Attempt(parts[i], prefixes[i], retries, replies[i]) && True(b.contents, prefixes[i], replies[i])
    ensures b.trace == old(b.trace) + Flat(parts)
  {
    var residue, problems: seq<string> := [], [];
    parts, replies := [], [];
    for i := 0 to 2
      invariant |parts| == |replies| == i && b.trace == old(b.trace) + Flat(parts)
      invariant forall j :: 0 <= j < i ==>
        Attempt(parts[j], prefixes[j], retries, replies[j]) && True(b.contents, prefixes[j], replies[j])
      invariant old(ctx.refusals) <= ctx.refusals
      invariant old(ctx.consents) <= ctx.consents && Granted(ctx.consents, |old(b.trace)|, |b.trace|)
      invariant ctx.refusals == old(ctx.refusals) ==> NoneGivenUp(parts, replies, retries)
      invariant residue != [] <==> System.NonEmpty in replies
      invariant problems != [] <==> System.Unanswered in replies
    {
      var reply, _, sent := Retry(b, ctx, prefixes[i], retries);
      if reply == System.Unanswered {
        problems := problems + [prefixes[i]];
      } else if reply == System.NonEmpty {
        residue := residue + [prefixes[i]];
      }
      FlatSnoc(parts, sent);
      Grouped(old(b.trace), Flat(parts), sent);
      NoneGivenUpMore(parts, replies, retries, sent, reply);
      parts, replies := parts + [sent], replies + [reply];
    }
    check := if residue != [] then Residue else if problems != [] then Error else Pass;
  }

  lemma NoneGivenUpMore(parts: seq<seq<Request>>, replies: seq<Reply>, retries: nat, sent: seq<Request>, reply: Reply)
    requires |parts| == |replies|
    ensures NoneGivenUp(parts, replies, retries) && (reply == System.Unanswered ==> |sent| == retries + 1) ==>
              NoneGivenUp(parts + [sent], replies + [reply], retries)
  {
  }

  /** Residue outweighs a failed check, which outweighs a pass. */
  lemma RepliesDecide(replies: seq<Reply>)
    requires |replies| == 2
    ensures System.Verdict(replies) == Residue <==> System.NonEmpty in replies
    ensures System.Verdict(replies) == Error <==> System.NonEmpty !in replies && System.Unanswered in replies
    ensures System.Verdict(replies) == Pass <==> replies == [System.Empty, System.Empty]
  {
    TwoReplies(replies);
    assert replies[0] == replies[1] == System.Empty ==> replies == [System.Empty, System.Empty];
  }

  /** A check without an answer has used all its attempts. */
  ghost predicate NoneGivenUp(parts: seq<seq<Request>>, replies: seq<Reply>, retries: nat) {
    forall i :: 0 <= i < |parts| && i < |replies| && replies[i] == System.Unanswered ==> |parts[i]| == retries + 1
  }

  // ---------------------------------------------------------------- what is recorded

  /** The record says what the store holds: a pass means nothing, a residue something. */
  ghost predicate Honest(store: map<string, nat>, o: Oid, check: Check) {
    && (check == Pass ==> System.Residues(store, o) == {})
    && (check == Residue ==> System.Residues(store, o) != {})
    && check != Check.Pending
  }

  lemma VerdictIsHonest(store: map<string, nat>, x: Examined, retries: nat)
    requires Faithful(x, store, retries)
    ensures Honest(store, x.oid, System.Verdict(x.replies))
  {
    TwoReplies(x.replies);
    assert True(store, PieceKeys.Prefixes(x.oid)[0], x.replies[0]);
    assert True(store, PieceKeys.Prefixes(x.oid)[1], x.replies[1]);
  }

  lemma TwoReplies(replies: seq<Reply>)
    requires |replies| == 2
    ensures forall r :: r in replies <==> r == replies[0] || r == replies[1]
  {
    assert replies[0] in replies && replies[1] in replies;
  }

  /**
   What is recorded is exact where the store could be seen: residue exactly if some prefix was
   answered and held a key, and no residue is missed unless the check of its prefix went
   unanswered; an error means that one did and that the other showed nothing.
   */
  lemma VerdictIsExact(store: map<string, nat>, x: Examined, retries: nat)
    requires Faithful(x, store, retries)
    ensures var check := System.Verdict(x.replies);
            var answered := i => 0 <= i < 2 && x.replies[i] != System.Unanswered;
            && (check == Residue <==> exists i :: answered(i) && Listed(store, PieceKeys.Prefixes(x.oid)[i]) != {})
            && (check == Error <==> check != Residue && exists i :: 0 <= i < 2 && !answered(i))
            && (check == Pass <==> answered(0) && answered(1) && System.Residues(store, x.oid) == {})
  {
    TwoReplies(x.replies);
    assert True(store, PieceKeys.Prefixes(x.oid)[0], x.replies[0]);
    assert True(store, PieceKeys.Prefixes(x.oid)[1], x.replies[1]);
  }

  /** One record for each examined member, in the order of the examinations. */
  function Noted(db: Db, t: TaskId, generation: nat, asked: seq<Examined>): Db {
    if asked == [] then db
    else
      var x := asked[|asked| - 1];
      var was := Noted(db, t, generation, asked[..|asked| - 1]);
      match Ledger.RecordVerify(was, t, generation, x.oid, System.Verdict(x.replies))
      case Ok(after) => after
      case Err(_) => was
  }

  lemma NotedSnoc(db: Db, t: TaskId, generation: nat, asked: seq<Examined>, x: Examined)
    ensures var was := Noted(db, t, generation, asked);
            var r := Ledger.RecordVerify(was, t, generation, x.oid, System.Verdict(x.replies));
            Noted(db, t, generation, asked + [x]) == if r.Ok? then r.value else was
  {
    assert (asked + [x])[..|asked|] == asked;
  }

  lemma NotedKeeps(db: Db, t: TaskId, generation: nat, asked: seq<Examined>)
    ensures var now := Noted(db, t, generation, asked);
            now == db.(members := now.members) && now.members.Keys == db.members.Keys
  {
  }

  /** A row keeps its deferral, and only the rows of examined members change at all. */
  lemma {:induction false} NotedElsewhere(db: Db, t: TaskId, generation: nat, asked: seq<Examined>, k: RowKey)
    requires k in db.members
    ensures var now := Noted(db, t, generation, asked);
            k in now.members && now.members[k].deferred == db.members[k].deferred
            && (k.0 != t || k.1 !in OidsAsked(asked) ==> now.members[k] == db.members[k])
  {
    if asked != [] {
      var n := |asked| - 1;
      NotedElsewhere(db, t, generation, asked[..n], k);
      assert k == (k.0, k.1) && asked == asked[..n] + [asked[n]];
      SentSnoc(asked[..n], asked[n]);
    }
  }

  // ---------------------------------------------------------------- paging while recording

  lemma UnverifiedAre(db: Db, t: TaskId, generation: nat)
    ensures forall o :: o in UnverifiedOids(db, t, generation) <==> Unverified(db, t, generation, o)
  {
    forall o | Unverified(db, t, generation, o) ensures o in UnverifiedOids(db, t, generation) {
      assert (t, o) in db.members;
    }
  }

  /** Recording behind the cursor does not change what lies ahead of it. */
  lemma AheadIsUnchanged(db: Db, t: TaskId, generation: nat, asked: seq<Examined>, cursor: Oid)
    requires forall o :: o in OidsAsked(asked) ==> o <= cursor
    ensures Keyset.Above(UnverifiedOids(Noted(db, t, generation, asked), t, generation), cursor)
            == Keyset.Above(UnverifiedOids(db, t, generation), cursor)
  {
    var now := Noted(db, t, generation, asked);
    NotedKeeps(db, t, generation, asked);
    forall o | cursor < o ensures Unverified(now, t, generation, o) <==> Unverified(db, t, generation, o) {
      if (t, o) in db.members {
        NotedElsewhere(db, t, generation, asked, (t, o));
      }
    }
    UnverifiedAre(db, t, generation);
    UnverifiedAre(now, t, generation);
  }

  // ---------------------------------------------------------------- the run

  const PAGE := 1000

  /** The least pending member above the cursor. */
  ghost predicate Next(pending: set<Oid>, cursor: Oid, o: Oid) {
    cursor < o && o in pending && forall p :: p in pending && cursor < p ==> o <= p
  }

  /**
   What a run goes by: the requests sent before it, the members pending then, which
   examinations are genuine, and what the tables are after a list of them. `Means` says what
   the two functions stand for; the loops need not look into them.
   */
  datatype Course = Course(sent: seq<Request>, pending: set<Oid>, genuine: Examined -> bool,
                           noted: seq<Examined> -> Db) {
    ghost predicate Means(before: Db, t: TaskId, generation: nat, store: map<string, nat>, retries: nat) {
      && (forall x {:trigger Faithful(x, store, retries)} :: genuine(x) <==> Faithful(x, store, retries))
      && (forall asked {:trigger Noted(before, t, generation, asked)} ::
            noted(asked) == Noted(before, t, generation, asked))
    }

    /** What holds between two members: those behind the cursor are examined, in order. */
    ghost predicate Midway(asked: seq<Examined>, cursor: Oid) {
      && OidsAsked(asked) == Keyset.Sorted(Keyset.Behind(pending, cursor))
      && forall x {:trigger genuine(x)} :: x in asked ==> genuine(x)
    }

    /** An examination that was cut off before it was recorded: at most one, of the next member. */
    ghost predicate Open(open: seq<Examined>, cursor: Oid) {
      |open| <= 1 && forall x :: x in open ==> genuine(x) && Next(pending, cursor, x.oid)
    }

    lemma Starts()
      ensures Midway([], 0)
    {
      assert Keyset.Behind(pending, 0) == {};
    }

    lemma Ahead(before: Db, t: TaskId, generation: nat, asked: seq<Examined>, cursor: Oid)
      requires Midway(asked, cursor) && pending == UnverifiedOids(before, t, generation)
      ensures Keyset.Above(UnverifiedOids(Noted(before, t, generation, asked), t, generation), cursor)
              == Keyset.Above(pending, cursor)
    {
      var q := OidsAsked(asked);
      assert forall o :: o in q ==> o in Keyset.Elements(q);
      AheadIsUnchanged(before, t, generation, asked, cursor);
    }

    lemma Step(asked: seq<Examined>, cursor: Oid, x: Examined)
      requires Midway(asked, cursor) && Next(pending, cursor, x.oid) && genuine(x)
      ensures Midway(asked + [x], x.oid)
    {
      Keyset.BehindGrows(pending, cursor, x.oid);
      SentSnoc(asked, x);
    }
  }

  lemma NextExtends(pending: set<Oid>, q: seq<Oid>, cursor: Oid, o: Oid)
    requires q == Keyset.Sorted(Keyset.Behind(pending, cursor)) && Next(pending, cursor, o)
    ensures q + [o] <= Keyset.Sorted(Keyset.Above(pending, 0))
  {
    Keyset.BehindGrows(pending, cursor, o);
    Keyset.BehindIsPrefix(pending, o);
  }

  /** Where the run stops, the members examined are the first of the pending ones. */
  lemma AskedSoFar(pending: set<Oid>, asked: seq<Examined>, open: seq<Examined>, cursor: Oid)
    requires OidsAsked(asked) == Keyset.Sorted(Keyset.Behind(pending, cursor))
    requires |open| <= 1 && forall x :: x in open ==> Next(pending, cursor, x.oid)
    ensures OidsAsked(asked + open) <= Keyset.Sorted(Keyset.Above(pending, 0))
  {
    if open == [] {
      AndNothing(asked);
      Keyset.BehindIsPrefix(pending, cursor);
    } else {
      assert open[0] in open && open == [open[0]];
      SentSnoc(asked, open[0]);
      NextExtends(pending, OidsAsked(asked), cursor, open[0].oid);
    }
  }

  lemma SentMore(sent: seq<Request>, asked: seq<Examined>, x: Examined)
    ensures sent + Sent(asked) + Flat(x.parts) == sent + Sent(asked + [x])
  {
    SentSnoc(asked, x);
    Grouped(sent, Sent(asked), Flat(x.parts));
  }

  /** Both prefixes of one member. */
  method CheckMember(b: Bucket, ctx: Context, o: Oid, retries: nat) returns (check: Check, ghost x: Examined)
    modifies b`trace, ctx
    ensures old(ctx.consents) <= ctx.consents && Granted(ctx.consents, |old(b.trace)|, |b.trace|)
    ensures old(ctx.refusals) <= ctx.refusals
    ensures ctx.refusals == old(ctx.refusals) ==> NoneGivenUp(x.parts, x.replies, retries)
    ensures x.oid == o && Faithful(x, b.contents, retries) && check == System.Verdict(x.replies)
    ensures b.trace == old(b.trace) + Flat(x.parts)
  {
    ghost var parts, replies;
    check, parts, replies := CheckObject(b, ctx, PieceKeys.Prefixes(o), retries);
    x := Examined(o, parts, replies);
  }

  /** The examination of the next member, as the course of the run sees it. */
  method Examine(b: Bucket, ctx: Context, t: TaskId, generation: nat, retries: nat, o: Oid,
                 ghost before: Db, ghost c: Course, ghost asked: seq<Examined>)
    returns (check: Check, ghost x: Examined)
    requires c.Means(before, t, generation, b.contents, retries) && b.trace == c.sent + Sent(asked)
    modifies b`trace, ctx
    ensures old(ctx.consents) <= ctx.consents && Granted(ctx.consents, |old(b.trace)|, |b.trace|)
    ensures old(ctx.refusals) <= ctx.refusals
    ensures ctx.refusals == old(ctx.refusals) ==> NoneGivenUp(x.parts, x.replies, retries)
    ensures x.oid == o && c.genuine(x) && check == System.Verdict(x.replies)
    ensures b.trace == c.sent + Sent(asked + [x])
  {
    check, x := CheckMember(b, ctx, o, retries);
    SentMore(c.sent, asked, x);
  }

  /** RecordVerify, which refuses nothing that an examination can give. */
  method Note(p: Database, t: TaskId, generation: nat, o: Oid, check: Check, ghost store: map<string, nat>,
              ghost retries: nat, ghost before: Db, ghost c: Course, ghost asked: seq<Examined>, ghost x: Examined)
    requires p.Valid() && t in p.tasks && !p.tasks[t].done && generation == p.tasks[t].generation
    requires c.Means(before, t, generation, store, retries)
    requires p.View() == c.noted(asked) && o == x.oid && check == System.Verdict(x.replies)
    modifies p`members
    ensures p.Valid() && p.View() == c.noted(asked + [x])
  {
    NotedSnoc(before, t, generation, asked, x);
    var _ := p.RecordVerify(t, generation, o, check);
  }

  /** The next member: examined if the run may go on, and to be recorded if it still may. */
  method ExamineNext(b: Bucket, ctx: Context, t: TaskId, generation: nat, retries: nat, o: Oid,
                     ghost before: Db, ghost c: Course, ghost asked: seq<Examined>, ghost cursor: Oid)
    returns (stopped: bool, check: Check, ghost x: Examined, ghost one: seq<Examined>)
    requires c.Means(before, t, generation, b.contents, retries) && b.trace == c.sent + Sent(asked)
    requires Next(c.pending, cursor, o)
    modifies b`trace, ctx
    ensures old(ctx.consents) <= ctx.consents && Granted(ctx.consents, |old(b.trace)|, |b.trace|)
    ensures !stopped ==> |b.trace| in ctx.consents
    ensures old(ctx.refusals) <= ctx.refusals && (stopped ==> old(ctx.refusals) < ctx.refusals)
    ensures ctx.refusals == old(ctx.refusals) ==> Thorough(one, retries)
    ensures c.Open(one, cursor) && b.trace == c.sent + Sent(asked + one)
    ensures !stopped ==> one == [x] && x.oid == o && c.genuine(x) && check == System.Verdict(x.replies)
  {
    check, x := Error, Examined(o, [], []);
    AndNothing(asked);
    var up := ctx.Proceed(|b.trace|);
    if !up {
      return true, check, x, [];
    }
    check, x := Examine(b, ctx, t, generation, retries, o, before, c, asked);
    one := [x];
    up := ctx.Proceed(|b.trace|);
    stopped := !up;
  }

  /** It is recorded unless the run was cancelled meanwhile. */
  method CheckNext(p: Database, b: Bucket, ctx: Context, t: TaskId, generation: nat, retries: nat, o: Oid,
                   ghost before: Db, ghost c: Course, ghost asked: seq<Examined>, ghost cursor: Oid)
    returns (stopped: bool, ghost asked': seq<Examined>, ghost open: seq<Examined>)
    requires p.Valid() && t in p.tasks && !p.tasks[t].done && generation == p.tasks[t].generation
    requires c.Means(before, t, generation, b.contents, retries)
    requires p.View() == c.noted(asked) && b.trace == c.sent + Sent(asked)
    requires c.Midway(asked, cursor) && Next(c.pending, cursor, o)
    modifies p`members, b`trace, ctx
    ensures Heard(old(ctx.consents), ctx.consents, |old(b.trace)|, |b.trace|)
    ensures !stopped ==> |b.trace| in ctx.consents
    ensures old(ctx.refusals) <= ctx.refusals && (stopped ==> old(ctx.refusals) < ctx.refusals)
    ensures ctx.refusals == old(ctx.refusals) && Thorough(asked, retries) ==> Thorough(asked', retries)
    ensures p.Valid() && p.View() == c.noted(asked')
    ensures c.Open(open, cursor) && b.trace == c.sent + Sent(asked' + open)
    ensures if stopped then asked' == asked else open == [] && c.Midway(asked', o) && b.trace == c.sent + Sent(asked')
  {
    var check;
    ghost var x, one;
    stopped, check, x, one := ExamineNext(b, ctx, t, generation, retries, o, before, c, asked, cursor);
    HeardGranted(old(ctx.consents), ctx.consents, |old(b.trace)|, |b.trace|);
    if stopped {
      asked', open := asked, one;
    } else {
      c.Step(asked, cursor, x);
      Note(p, t, generation, o, check, b.contents, retries, before, c, asked, x);
      ThoroughOn(asked, one, retries);
      AndNothing(asked + one);
      asked', open := asked + one, [];
    }
  }

  lemma AndNothing(asked: seq<Examined>)
    ensures asked + [] == asked
  {
  }

  /** No check of these members was given up before its last attempt. */
  ghost predicate Thorough(asked: seq<Examined>, retries: nat) {
    forall x {:trigger NoneGivenUp(x.parts, x.replies, retries)} ::
      x in asked ==> NoneGivenUp(x.parts, x.replies, retries)
  }

  lemma ThoroughOn(asked: seq<Examined>, one: seq<Examined>, retries: nat)
    ensures Thorough(asked + one, retries) <==> Thorough(asked, retries) && Thorough(one, retries)
  {
    assert forall x :: x in asked + one <==> x in asked || x in one;
  }

  /** One page, member by member. */
  method CheckPage(p: Database, b: Bucket, ctx: Context, t: TaskId, generation: nat, retries: nat, page: seq<Oid>,
                   from: Oid, ghost before: Db, ghost c: Course, ghost done: seq<Examined>)
    returns (stopped: bool, cursor: Oid, ghost asked: seq<Examined>, ghost open: seq<Examined>)
    requires p.Valid() && t in p.tasks && !p.tasks[t].done && generation == p.tasks[t].generation
    requires c.Means(before, t, generation, b.contents, retries)
    requires p.View() == c.noted(done) && b.trace == c.sent + Sent(done)
    requires c.Midway(done, from) && page == Keyset.Page(c.pending, from, PAGE) && page != []
    modifies p`members, b`trace, ctx
    ensures Heard(old(ctx.consents), ctx.consents, |old(b.trace)|, |b.trace|)
    ensures old(ctx.refusals) <= ctx.refusals && (stopped ==> old(ctx.refusals) < ctx.refusals)
    ensures ctx.refusals == old(ctx.refusals) && Thorough(done, retries) ==> Thorough(asked, retries)
    ensures p.Valid() && p.View() == c.noted(asked)
    ensures c.Midway(asked, cursor) && c.Open(open, cursor) && b.trace == c.sent + Sent(asked + open)
    ensures !stopped ==> open == [] && cursor == page[|page| - 1] && from < cursor
  {
    stopped, cursor, asked, open := false, from, done, [];
    HeardGranted(ctx.consents, ctx.consents, |b.trace|, |b.trace|);
    for i := 0 to |page|
      invariant p.Valid() && p.View() == c.noted(asked)
      invariant old(ctx.refusals) <= ctx.refusals
      invariant Heard(old(ctx.consents), ctx.consents, |old(b.trace)|, |b.trace|)
      invariant ctx.refusals == old(ctx.refusals) && Thorough(done, retries) ==> Thorough(asked, retries)
      invariant c.Midway(asked, cursor) && open == [] && b.trace == c.sent + Sent(asked)
      invariant cursor == (if i == 0 then from else page[i - 1]) && (0 < i ==> from < cursor)
    {
      Keyset.NextIsLeast(c.pending, from, PAGE, page, i);
      ghost var earlier, mid := ctx.consents, |b.trace|;
      stopped, asked, open := CheckNext(p, b, ctx, t, generation, retries, page[i], before, c, asked, cursor);
      HeardOn(old(ctx.consents), earlier, ctx.consents, |old(b.trace)|, mid, |b.trace|);
      if stopped {
        return;
      }
      cursor := page[i];
    }
    AndNothing(asked);
  }

  /** The next page, if there is one. */
  method NextPage(p: Database, b: Bucket, ctx: Context, t: TaskId, generation: nat, retries: nat, from: Oid,
                  ghost before: Db, ghost c: Course, ghost done: seq<Examined>)
    returns (more: bool, stopped: bool, cursor: Oid, ghost asked: seq<Examined>, ghost open: seq<Examined>)
    requires p.Valid() && t in p.tasks && !p.tasks[t].done && generation == p.tasks[t].generation
    requires c.Means(before, t, generation, b.contents, retries) && c.pending == UnverifiedOids(before, t, generation)
    requires p.View() == c.noted(done) && b.trace == c.sent + Sent(done)
    requires c.Midway(done, from)
    modifies p`members, b`trace, ctx
    ensures Heard(old(ctx.consents), ctx.consents, |old(b.trace)|, |b.trace|)
    ensures old(ctx.refusals) <= ctx.refusals && (stopped ==> old(ctx.refusals) < ctx.refusals)
    ensures ctx.refusals == old(ctx.refusals) && Thorough(done, retries) ==> Thorough(asked, retries)
    ensures p.Valid() && p.View() == c.noted(asked)
    ensures c.Midway(asked, cursor) && c.Open(open, cursor) && b.trace == c.sent + Sent(asked + open)
    ensures !stopped ==> open == [] && (more <==> Keyset.Above(c.pending, from) != {})
    ensures !stopped && more ==> |Keyset.Above(c.pending, cursor)| < |Keyset.Above(c.pending, from)|
    ensures !stopped && !more ==> cursor == from
  {
    more, stopped, cursor, asked, open := false, false, from, done, [];
    HeardGranted(ctx.consents, ctx.consents, |b.trace|, |b.trace|);
    AndNothing(asked);
    c.Ahead(before, t, generation, asked, from);
    var page := p.VerifyPending(t, generation, from, PAGE);
    Keyset.PageIsExact(c.pending, from, PAGE);
    if page == [] {
      return;
    }
    more := true;
    stopped, cursor, asked, open := CheckPage(p, b, ctx, t, generation, retries, page, from, before, c, done);
    if !stopped {
      Keyset.AheadShrinks(c.pending, from, cursor);
    }
  }

  /** The paging loop. */
  method RunPages(p: Database, b: Bucket, ctx: Context, t: TaskId, generation: nat, retries: nat,
                  ghost before: Db, ghost c: Course)
    returns (stopped: bool, ghost asked: seq<Examined>, ghost open: seq<Examined>, ghost cursor: Oid)
    requires p.Valid() && t in p.tasks && !p.tasks[t].done && generation == p.tasks[t].generation
    requires c.Means(before, t, generation, b.contents, retries) && c.pending == UnverifiedOids(before, t, generation)
    requires p.View() == c.noted([]) && b.trace == c.sent
    modifies p`members, b`trace, ctx
    ensures Heard(old(ctx.consents), ctx.consents, |old(b.trace)|, |b.trace|)
    ensures old(ctx.refusals) <= ctx.refusals && (stopped ==> old(ctx.refusals) < ctx.refusals)
    ensures ctx.refusals == old(ctx.refusals) ==> Thorough(asked, retries)
    ensures p.Valid() && p.View() == c.noted(asked)
    ensures c.Midway(asked, cursor) && c.Open(open, cursor) && b.trace == c.sent + Sent(asked + open)
    ensures !stopped ==> open == [] && Keyset.Above(c.pending, cursor) == {}
  {
    var after: Oid, more := 0, true;
    asked, open, cursor, stopped := [], [], 0, false;
    c.Starts();
    HeardGranted(ctx.consents, ctx.consents, |b.trace|, |b.trace|);
    while more
      invariant old(ctx.refusals) <= ctx.refusals && (stopped ==> old(ctx.refusals) < ctx.refusals)
      invariant Heard(old(ctx.consents), ctx.consents, |old(b.trace)|, |b.trace|)
      invariant ctx.refusals == old(ctx.refusals) ==> Thorough(asked, retries)
      invariant p.Valid() && p.View() == c.noted(asked) && cursor == after
      invariant c.Midway(asked, after) && c.Open(open, after) && b.trace == c.sent + Sent(asked + open)
      invariant more ==> !stopped && open == []
      invariant !more && !stopped ==> open == [] && Keyset.Above(c.pending, after) == {}
      decreases more, |Keyset.Above(c.pending, after)|
    {
      AndNothing(asked);
      ghost var earlier, mid := ctx.consents, |b.trace|;
      var up := ctx.Proceed(|b.trace|);
      HeardGranted(earlier, ctx.consents, mid, mid);
      HeardOn(old(ctx.consents), earlier, ctx.consents, |old(b.trace)|, mid, mid);
      earlier := ctx.consents;
      if !up {
        return true, asked, [], after;
      }
      more, stopped, after, asked, open := NextPage(p, b, ctx, t, generation, retries, after, before, c, asked);
      HeardOn(old(ctx.consents), earlier, ctx.consents, |old(b.trace)|, mid, |b.trace|);
      cursor, more := after, more && !stopped;
    }
  }

  /**
   Runner.Run. What it sends is what examining some members takes, one after the other: the
   first members of the ascending list of all that were pending at the start, and all of them
   when it is not stopped. What it records is the verdict of each examination, once;
   only the last one may have gone unrecorded, when the run was stopped.
   */
  method Run(p: Database, b: Bucket, ctx: Context, t: TaskId, generation: nat, retries: nat)
    returns (stopped: bool, ghost asked: seq<Examined>, ghost recorded: nat)
    requires p.Valid() && t in p.tasks && !p.tasks[t].done && generation == p.tasks[t].generation
    modifies p`members, b`trace, ctx
    ensures Heard(old(ctx.consents), ctx.consents, |old(b.trace)|, |b.trace|)
    ensures old(ctx.refusals) <= ctx.refusals && (stopped ==> old(ctx.refusals) < ctx.refusals)
    ensures ctx.refusals == old(ctx.refusals) ==> Thorough(asked, retries)
    ensures p.Valid()
    ensures var pending := Keyset.Sorted(Keyset.Above(UnverifiedOids(old(p.View()), t, generation), 0));
            OidsAsked(asked) <= pending && (!stopped ==> OidsAsked(asked) == pending && recorded == |asked|)
    ensures AllFaithful(asked, b.contents, retries) && b.trace == old(b.trace) + Sent(asked)
    ensures recorded <= |asked| <= recorded + 1
    ensures p.View() == Noted(old(p.View()), t, generation, asked[..recorded])
  {
    ghost var store, before := b.contents, p.View();
    ghost var c := Course(b.trace, UnverifiedOids(before, t, generation), (x: Examined) => Faithful(x, store, retries),
                          (q: seq<Examined>) => Noted(before, t, generation, q));
    ghost var noted, open, cursor;
    stopped, noted, open, cursor := RunPages(p, b, ctx, t, generation, retries, before, c);
    asked, recorded := noted + open, |noted|;
    assert asked[..recorded] == noted;
    AskedSoFar(c.pending, noted, open, cursor);
    if !stopped {
      Keyset.BehindIsAll(c.pending, cursor);
      assert asked == noted;
    }
  }
}
