/**
 The per-object deletion engine (internal/purge): the identity check, the list-and-delete
 loop with its retry budgets, and the final re-check, over storage that may fail in any way.
 A `Context` is asked before every request and may interrupt the attempt.
 */
module Engine {
  import opened Wrappers
  import opened Storage
  import opened Traffic
  import opened Interrupts
  import PieceKeys

  /** Why an attempt on an object failed. */
  datatype Failure =
    | Interrupted | ChainUnavailable | IdentityMismatch | ListingFailed | UnknownKeys | StuckKeys
    | RecheckFailed | ResidueLeft

  /** The failures that put the scope of the task in doubt. */
  predicate IsSafety(f: Failure) {
    f.IdentityMismatch? || f.UnknownKeys?
  }

  datatype Claimed = Claimed(oid: nat, payload: nat, status: string, version: int)
  datatype ObjectHead = ObjectHead(id: nat, bucket: string, status: string, version: int, payload: nat)
  datatype Field = Id | InBucket | Status | Version | PayloadSize

  /** identityDiff: every way the chain's view departs from what was approved. */
  function IdentityDiff(c: Claimed, h: ObjectHead, bucket: string): seq<Field> {
    (if h.id != c.oid then [Id] else [])
    + (if h.bucket != bucket then [InBucket] else [])
    + (if h.status != c.status then [Status] else [])
    + (if h.version != c.version then [Version] else [])
    + (if h.payload != c.payload then [PayloadSize] else [])
  }

  /** No difference means the very object that was approved, in the target bucket. */
  lemma IdentityIsExact(c: Claimed, h: ObjectHead, bucket: string)
    ensures IdentityDiff(c, h, bucket) == [] <==> h == ObjectHead(c.oid, bucket, c.status, c.version, c.payload)
  {
    match h
    case ObjectHead(id, b, status, version, payload) =>
  }

  // ---------------------------------------------------------------- what an attempt may do

  /**
   `mine` tells the pieces of object `oid` from all other keys. The loop and its lemmas need
   nothing else about the key grammar.
   */
  ghost predicate Recognizes(mine: string -> bool, oid: nat) {
    forall k {:trigger PieceKeys.PieceOf(oid, k)} :: mine(k) <==> PieceKeys.PieceOf(oid, k)
  }

  /** Only pieces of the object are gone, and all of them were under the prefix. */
  ghost predicate Cleaned(before: map<string, nat>, after: map<string, nat>, mine: string -> bool, prefix: string,
                          confirmed: set<string>, silent: set<string>)
  {
    && confirmed !! silent && confirmed + silent <= Listed(before, prefix)
    && (forall k :: k in confirmed + silent ==> mine(k))
    && after == before - (confirmed + silent)
  }

  /** The traffic of one clearing loop that met `n` keys, with `retries` retries. */
  ghost predicate Bounded(t: seq<Request>, mine: string -> bool, prefix: string, retries: nat, n: nat) {
    && Deletes(t) <= n * (retries + 1)
    && Lists(t) <= (retries + 1) * (Deletes(t) + 1)
    && (forall k :: Submitted(t, k) <= retries + 1)
    && DeletesWhatWasListed(t, mine, prefix) && ListsOnly(t, prefix)
  }

  /** An error is never spurious: what the requests show when the loop ends with it. */
  ghost predicate Justified(t: seq<Request>, mine: string -> bool, prefix: string, retries: nat, f: Failure) {
    match f
    case Interrupted => true
    case ListingFailed => FailedInARow(t, prefix, retries + 1)
    case UnknownKeys => t != [] && t[|t| - 1].List? && exists k :: k in t[|t| - 1].keys && !mine(k)
    case StuckKeys => t != [] && t[|t| - 1].Delete?
                      && exists k :: k in t[|t| - 1].batch && Submitted(t, k) == retries + 1
    case _ => false
  }

  /** The prefix holds a key that is not a piece of the object. */
  ghost predicate HoldsForeign(store: map<string, nat>, prefix: string, mine: string -> bool) {
    exists k :: k in Listed(store, prefix) && !mine(k)
  }

  /** No attempt removes a foreign key, so a prefix that holds one is never reported clear. */
  lemma ForeignKeysStay(before: map<string, nat>, after: map<string, nat>, mine: string -> bool, prefix: string,
                        confirmed: set<string>, silent: set<string>)
    requires Cleaned(before, after, mine, prefix, confirmed, silent)
    ensures HoldsForeign(before, prefix, mine) <==> HoldsForeign(after, prefix, mine)
  {
    if HoldsForeign(before, prefix, mine) {
      var k :| k in Listed(before, prefix) && !mine(k);
      assert k in Listed(after, prefix);
    }
    if HoldsForeign(after, prefix, mine) {
      var k :| k in Listed(after, prefix) && !mine(k);
      assert k in Listed(before, prefix);
    }
  }

  /** An attempt is interrupted exactly when it has been refused. */
  function Refused(err: Option<Failure>): nat {
    if err == Some(Interrupted) then 1 else 0
  }

  // ---------------------------------------------------------------- one round

  /** Sizes of the confirmed keys, as listed. */
  function Weigh(sizes: map<string, nat>, deleted: seq<string>): Amount
    requires forall k :: k in deleted ==> k in sizes
  {
    if deleted == [] then Amount(0, 0)
    else
      var k := deleted[|deleted| - 1];
      Plus(Weigh(sizes, deleted[..|deleted| - 1]), Amount(1, sizes[k]))
  }

  lemma {:induction false} WeighIsSize(sizes: map<string, nat>, store: map<string, nat>, deleted: seq<string>)
    requires Distinct(deleted) && forall k :: k in deleted ==> k in sizes && k in store && sizes[k] == store[k]
    ensures Weigh(sizes, deleted) == Size(store, Members(deleted))
  {
    if deleted != [] {
      var init, k := deleted[..|deleted| - 1], deleted[|deleted| - 1];
      assert deleted == init + [k];
      MembersSnoc(init, k);
      WeighIsSize(sizes, store, init);
      SizeRemove(store, Members(deleted), k);
      assert Members(deleted) - {k} == Members(init);
      PlusCommutes(Amount(1, store[k]), Size(store, Members(init)));
    }
  }

  lemma PlusCommutes(a: Amount, b: Amount)
    ensures Plus(a, b) == Plus(b, a)
  {
  }

  /** The listing as the loop keeps it: the keys in order, and their sizes. */
  method Unpack(objs: seq<Entry>) returns (all: seq<string>, sizes: map<string, nat>)
    requires Distinct(KeysOf(objs))
    ensures all == KeysOf(objs)
    ensures forall e :: e in objs ==> e.key in sizes && sizes[e.key] == e.size
  {
    all, sizes := [], map[];
    for i := 0 to |objs|
      invariant all == KeysOf(objs)[..i]
      invariant forall j :: 0 <= j < i ==> objs[j].key in sizes && sizes[objs[j].key] == objs[j].size
    {
      assert forall j :: 0 <= j < i ==> KeysOf(objs)[j] != KeysOf(objs)[i];
      all := all + [objs[i].key];
      sizes := sizes[objs[i].key := objs[i].size];
    }
  }

  lemma OneMoreKey(sizes: map<string, nat>, deleted: seq<string>, i: nat)
    requires i < |deleted| && forall k :: k in deleted ==> k in sizes
    ensures Members(deleted[..i + 1]) == Members(deleted[..i]) + {deleted[i]}
    ensures Weigh(sizes, deleted[..i + 1]).keys == Weigh(sizes, deleted[..i]).keys + 1
    ensures Weigh(sizes, deleted[..i + 1]).bytes == Weigh(sizes, deleted[..i]).bytes + sizes[deleted[i]]
  {
    assert deleted[..i + 1] == deleted[..i] + [deleted[i]] && deleted[..i + 1][..i] == deleted[..i];
    MembersSnoc(deleted[..i], deleted[i]);
  }

  /** Confirmed keys are counted with their sizes, and their failures are forgotten. */
  method Count(sizes: map<string, nat>, deleted: seq<string>, fails: map<string, nat>, keys: nat, bytes: nat)
    returns (fails': map<string, nat>, keys': nat, bytes': nat)
    requires forall k :: k in deleted ==> k in sizes
    ensures fails' == fails - Members(deleted)
    ensures keys' == keys + Weigh(sizes, deleted).keys && bytes' == bytes + Weigh(sizes, deleted).bytes
  {
    fails', keys', bytes' := fails, keys, bytes;
    for i := 0 to |deleted|
      invariant fails' == fails - Members(deleted[..i])
      invariant keys' == keys + Weigh(sizes, deleted[..i]).keys && bytes' == bytes + Weigh(sizes, deleted[..i]).bytes
    {
      var k := deleted[i];
      OneMoreKey(sizes, deleted, i);
      keys', bytes', fails' := keys' + 1, bytes' + sizes[k], fails' - {k};
    }
    assert deleted[..|deleted|] == deleted;
  }

  /** Every key of the batch that failed is charged; the keys that used up their retries are stuck. */
  method Charge(fails: map<string, nat>, batch: seq<string>, bad: set<string>, retries: nat)
    returns (fails': map<string, nat>, stuck: seq<string>)
    requires Distinct(batch)
    ensures forall k :: Failures(fails', k) == Failures(fails, k) + if k in batch && k in bad then 1 else 0
    ensures forall k :: k in stuck <==> k in batch && k in bad && retries < Failures(fails', k)
  {
    fails', stuck := fails, [];
    for i := 0 to |batch|
      invariant forall k :: Failures(fails', k) == Failures(fails, k) + if k in batch[..i] && k in bad then 1 else 0
      invariant forall k :: k in stuck <==> k in batch[..i] && k in bad && retries < Failures(fails', k)
    {
      var k := batch[i];
      assert batch[..i + 1] == batch[..i] + [k];
      assert k !in batch[..i];
      if k in bad {
        var n := Failures(fails', k) + 1;
        fails' := fails'[k := n];
        if retries < n {
          stuck := stuck + [k];
        }
      }
    }
    assert batch[..|batch|] == batch;
  }

  /** The bookkeeping after a reply: confirmed keys are counted, the bad ones charged. */
  method Settle(sizes: map<string, nat>, batch: seq<string>, deleted: seq<string>, bad: set<string>,
                fails: map<string, nat>, keys: nat, bytes: nat, retries: nat)
    returns (fails': map<string, nat>, keys': nat, bytes': nat, stuck: seq<string>)
    requires Distinct(batch) && (forall k :: k in deleted ==> k in sizes) && Members(deleted) !! bad
    requires bad <= Members(batch)
    ensures Amount(keys', bytes') == Plus(Amount(keys, bytes), Weigh(sizes, deleted))
    ensures forall k :: k !in Members(deleted) ==> Failures(fails', k) == Failures(fails, k) + if k in bad then 1 else 0
    ensures forall k :: k in stuck <==> k in bad && retries < Failures(fails', k)
  {
    fails', keys', bytes' := Count(sizes, deleted, fails, keys, bytes);
    stuck := [];
    if bad != {} {
      fails', stuck := Charge(fails', batch, bad, retries);
    }
  }

  lemma AllIn(part: seq<string>, whole: seq<string>)
    requires Members(part) <= Members(whole)
    ensures forall k :: k in part ==> k in whole
  {
    forall k | k in part ensures k in whole {
      assert k in Members(part);
    }
  }

  /** Every key of the batch is gone or charged, and no other key is either. */
  ghost predicate Settled(before: map<string, nat>, after: map<string, nat>, batch: seq<string>,
                          fails: map<string, nat>, fails': map<string, nat>, confirmed: set<string>, gone: set<string>)
  {
    && after == before - gone && confirmed <= gone <= Members(batch)
    && (forall k :: k in after ==> Failures(fails', k) == Failures(fails, k) + if k in batch then 1 else 0)
  }

  /** The delete request of one round; the guard of `Delete` lets every such batch through. */
  method Send(b: Bucket, oid: nat, mine: string -> bool, batch: seq<string>)
    returns (deleted: seq<string>, bad: set<string>, ghost gone: set<string>)
    requires Recognizes(mine, oid) && batch != [] && |batch| <= BATCH_LIMIT && forall k :: k in batch ==> mine(k)
    modifies b
    ensures b.trace == old(b.trace) + [Request.Delete(batch)]
    ensures b.contents == old(b.contents) - gone && gone <= Members(batch)
    ensures Distinct(deleted) && Members(deleted) !! bad && Members(deleted) + bad == Members(batch)
    ensures Members(deleted) * old(b.contents).Keys <= gone
  {
    var failed, err;
    deleted, failed, err, gone := b.Delete(oid, batch);
    if err == Some(UnsafeKeys) {
      assert false;
    }
    bad := if err.Some? then Members(batch) else Members(failed);
  }

  /** One delete request and its bookkeeping. */
  method Submit(b: Bucket, oid: nat, mine: string -> bool, batch: seq<string>, sizes: map<string, nat>,
                fails: map<string, nat>, keys: nat, bytes: nat, retries: nat)
    returns (fails': map<string, nat>, keys': nat, bytes': nat, clean: bool, stuck: seq<string>,
             ghost confirmed: set<string>, ghost gone: set<string>)
    requires Recognizes(mine, oid) && batch != [] && |batch| <= BATCH_LIMIT && Distinct(batch)
    requires forall k :: k in batch ==> mine(k) && k in sizes && k in b.contents && sizes[k] == b.contents[k]
    requires forall k :: k in batch ==> Failures(fails, k) <= retries
    modifies b
    ensures b.trace == old(b.trace) + [Request.Delete(batch)]
    ensures Settled(old(b.contents), b.contents, batch, fails, fails', confirmed, gone)
    ensures confirmed <= old(b.contents).Keys
            && Amount(keys', bytes') == Plus(Amount(keys, bytes), Size(old(b.contents), confirmed))
    ensures forall k :: k in stuck ==> k in batch && k !in confirmed && Failures(fails, k) == retries
    ensures stuck == [] ==> forall k :: k in batch && k in b.contents ==> Failures(fails', k) <= retries
    ensures clean ==> stuck == []
  {
    ghost var before := b.contents;
    var deleted, bad;
    deleted, bad, gone := Send(b, oid, mine, batch);
    confirmed, clean := Members(deleted), bad == {};
    AllIn(deleted, batch);
    assert confirmed <= before.Keys;
    WeighIsSize(sizes, before, deleted);
    fails', keys', bytes', stuck := Settle(sizes, batch, deleted, bad, fails, keys, bytes, retries);
    assert forall k :: k in b.contents ==> k !in confirmed;
    if stuck != [] {
      assert stuck[0] in stuck;
    }
  }

  /**
   One round: nothing is deleted when the listing holds a foreign key; otherwise the whole
   listing goes into one delete request.
   */
  method Round(b: Bucket, ctx: Context, oid: nat, mine: string -> bool, prefix: string, objs: seq<Entry>,
               fails: map<string, nat>, keys: nat, bytes: nat, retries: nat)
    returns (fails': map<string, nat>, keys': nat, bytes': nat, err: Option<Failure>,
             ghost sent: bool, ghost confirmed: set<string>, ghost gone: set<string>)
    requires Recognizes(mine, oid) && objs != [] && |objs| <= BATCH_LIMIT && Reports(b.contents, prefix, objs)
    requires forall k :: k in Listed(b.contents, prefix) ==> Failures(fails, k) <= retries
    modifies b, ctx
    ensures ctx.refusals == old(ctx.refusals) + Refused(err)
    ensures old(ctx.consents) <= ctx.consents && Granted(ctx.consents, |old(b.trace)|, |b.trace|)
    ensures err == Some(UnknownKeys) <==> !AllMine(KeysOf(objs), mine)
    ensures err == Some(UnknownKeys) || err == None || err == Some(Interrupted) || err == Some(StuckKeys)
    ensures !sent ==> b.trace == old(b.trace) && b.contents == old(b.contents) && keys' == keys && bytes' == bytes
                      && (err == Some(UnknownKeys) || err == Some(Interrupted))
    ensures sent ==> b.trace == old(b.trace) + [Request.Delete(KeysOf(objs))]
                     && Settled(old(b.contents), b.contents, KeysOf(objs), fails, fails', confirmed, gone)
                     && confirmed <= old(b.contents).Keys
                     && Amount(keys', bytes') == Plus(Amount(keys, bytes), Size(old(b.contents), confirmed))
                     && err != Some(UnknownKeys)
    ensures err == Some(StuckKeys) ==>
              exists k :: k in KeysOf(objs) && k !in confirmed && Failures(fails, k) == retries
    ensures err == None ==> forall k :: k in KeysOf(objs) && k in b.contents ==> Failures(fails', k) <= retries
  {
    var all, sizes := Unpack(objs);
    ListedEntries(b.contents, prefix, objs);
    var batch, rejected := PieceKeys.KeepOnly(all, oid);
    if rejected != [] {
      assert rejected[0] in rejected;
      return fails, keys, bytes, Some(UnknownKeys), false, {}, {};
    }
    var up := ctx.Proceed(|b.trace|);
    if !up {
      return fails, keys, bytes, Some(Interrupted), false, {}, {};
    }
    SizesMatch(b.contents, prefix, objs, sizes);
    var clean, stuck;
    fails', keys', bytes', clean, stuck, confirmed, gone :=
      Submit(b, oid, mine, batch, sizes, fails, keys, bytes, retries);
    GrantedMore(ctx.consents, |old(b.trace)|, |old(b.trace)|);
    assert |b.trace| == |old(b.trace)| + 1;
    err, sent := None, true;
    if clean {
      return;
    }
    if stuck != [] {
      assert stuck[0] in stuck;
      err := Some(StuckKeys);
      return;
    }
    up := ctx.Proceed(|b.trace|);
    if !up {
      err := Some(Interrupted);
    }
  }

  // ---------------------------------------------------------------- the clearing loop

  /** What the loop knows of its own traffic between two rounds. */
  ghost predicate Tracked(t: seq<Request>, mine: string -> bool, prefix: string, retries: nat, listFails: nat) {
    && listFails <= retries && FailedInARow(t, prefix, listFails)
    && Lists(t) <= (retries + 1) * Deletes(t) + listFails
    && (forall k :: Submitted(t, k) <= retries + 1)
    && DeletesWhatWasListed(t, mine, prefix) && ListsOnly(t, prefix)
  }

  /** Keys still listed have failed exactly as often as they were submitted, and may fail again. */
  ghost predicate Charges(t: seq<Request>, store: map<string, nat>, prefix: string, fails: map<string, nat>,
                          retries: nat) {
    forall k :: k in Listed(store, prefix) ==> Failures(fails, k) == Submitted(t, k) <= retries
  }

  lemma Product(a: nat, b: nat)
    ensures a * (b + 1) == a * b + a
  {
  }

  /** A listing request, answered or not, deletes nothing and submits nothing. */
  lemma AfterAnyListing(t: seq<Request>, mine: string -> bool, prefix: string, q: Request)
    requires DeletesWhatWasListed(t, mine, prefix) && ListsOnly(t, prefix) && !q.Delete? && q.prefix == prefix
    ensures DeletesWhatWasListed(t + [q], mine, prefix) && ListsOnly(t + [q], prefix)
    ensures Lists(t + [q]) == Lists(t) + 1 && Deletes(t + [q]) == Deletes(t)
    ensures forall k :: Submitted(t + [q], k) == Submitted(t, k)
  {
    Snoc(t, q);
    StillListed(t, mine, prefix, q);
  }

  lemma StillListed(t: seq<Request>, mine: string -> bool, prefix: string, q: Request)
    requires DeletesWhatWasListed(t, mine, prefix) && ListsOnly(t, prefix) && !q.Delete? && q.prefix == prefix
    ensures DeletesWhatWasListed(t + [q], mine, prefix) && ListsOnly(t + [q], prefix)
  {
    var t' := t + [q];
    forall j | 0 <= j < |t'| && t'[j].Delete? ensures j < |t| && t'[j] == t[j] && (0 < j ==> t'[j - 1] == t[j - 1]) {
    }
  }

  /** The last `n` requests are failed listings. */
  ghost predicate FailedInARow(t: seq<Request>, prefix: string, n: nat) {
    n <= |t| && forall j :: |t| - n <= j < |t| ==> t[j] == ListError(prefix)
  }

  lemma OneMoreFailed(t: seq<Request>, prefix: string, n: nat)
    requires FailedInARow(t, prefix, n)
    ensures FailedInARow(t + [ListError(prefix)], prefix, n + 1)
  {
  }

  lemma WithinLimit(limit: nat, deletes: nat, lists: nat, n: nat)
    requires lists <= limit * deletes + n && n < limit
    ensures lists + 1 <= limit * (deletes + 1)
  {
    Product(limit, deletes);
  }

  /** Whatever it is answered, a listing stays within the limits of the loop. */
  lemma ListingIsBounded(t: seq<Request>, mine: string -> bool, prefix: string, retries: nat, listFails: nat, n: nat,
                         q: Request)
    requires Tracked(t, mine, prefix, retries, listFails) && Deletes(t) <= n * (retries + 1)
    requires !q.Delete? && q.prefix == prefix
    ensures Bounded(t + [q], mine, prefix, retries, n)
  {
    AfterAnyListing(t, mine, prefix, q);
    WithinLimit(retries + 1, Deletes(t), Lists(t), listFails);
  }

  /** A failed listing is one more in a row. */
  lemma AfterListError(t: seq<Request>, mine: string -> bool, prefix: string, retries: nat, listFails: nat)
    requires Tracked(t, mine, prefix, retries, listFails)
    ensures var t' := t + [ListError(prefix)];
            (listFails < retries ==> Tracked(t', mine, prefix, retries, listFails + 1))
            && (listFails == retries ==> Justified(t', mine, prefix, retries, ListingFailed))
            && Deletes(t') == Deletes(t) && (forall k :: Submitted(t', k) == Submitted(t, k))
  {
    AfterAnyListing(t, mine, prefix, ListError(prefix));
    OneMoreFailed(t, prefix, listFails);
  }

  /** An answered listing ends the row of failures. */
  lemma AfterListing(t: seq<Request>, mine: string -> bool, prefix: string, retries: nat, listFails: nat,
                     all: seq<string>)
    requires Tracked(t, mine, prefix, retries, listFails)
    ensures var t' := t + [Request.List(prefix, all)];
            && Lists(t') <= (retries + 1) * (Deletes(t') + 1)
            && Deletes(t') == Deletes(t) && (forall k :: Submitted(t', k) == Submitted(t, k))
            && DeletesWhatWasListed(t', mine, prefix) && ListsOnly(t', prefix)
  {
    AfterAnyListing(t, mine, prefix, Request.List(prefix, all));
    WithinLimit(retries + 1, Deletes(t), Lists(t), listFails);
  }

  /** A delete request of the whole listing. */
  lemma AfterDelete(t: seq<Request>, mine: string -> bool, prefix: string, retries: nat, all: seq<string>)
    requires Lists(t) <= (retries + 1) * (Deletes(t) + 1)
    requires DeletesWhatWasListed(t, mine, prefix) && ListsOnly(t, prefix)
    requires t != [] && t[|t| - 1] == Request.List(prefix, all) && 0 < |all| <= BATCH_LIMIT
    requires forall k :: k in all ==> mine(k)
    requires forall k :: Submitted(t, k) <= if k in all then retries else retries + 1
    ensures var t' := t + [Request.Delete(all)];
            && Tracked(t', mine, prefix, retries, 0) && Deletes(t') == Deletes(t) + 1
            && (forall k :: Submitted(t', k) == Submitted(t, k) + if k in all then 1 else 0)
  {
    var t' := t + [Request.Delete(all)];
    Snoc(t, Request.Delete(all));
    forall j | 0 <= j < |t'| && t'[j].Delete?
      ensures 0 < j && t'[j - 1] == Request.List(prefix, t'[j].batch)
              && 0 < |t'[j].batch| <= BATCH_LIMIT && forall k :: k in t'[j].batch ==> mine(k)
    {
      if j < |t| {
        assert t'[j] == t[j];
        assert t'[j - 1] == t[j - 1];
      }
    }
  }

  lemma ListedEntries(store: map<string, nat>, prefix: string, objs: seq<Entry>)
    requires Reports(store, prefix, objs)
    ensures forall k :: k in KeysOf(objs) ==> k in Listed(store, prefix)
    ensures objs != [] ==> KeysOf(objs) != []
  {
    forall k | k in KeysOf(objs) ensures k in Listed(store, prefix) {
      var i :| 0 <= i < |objs| && KeysOf(objs)[i] == k;
      assert objs[i] in objs;
    }
  }

  lemma SizesMatch(store: map<string, nat>, prefix: string, objs: seq<Entry>, sizes: map<string, nat>)
    requires Reports(store, prefix, objs)
    requires forall e :: e in objs ==> e.key in sizes && sizes[e.key] == e.size
    ensures forall k :: k in KeysOf(objs) ==> k in sizes && k in store && sizes[k] == store[k]
  {
    forall k | k in KeysOf(objs) ensures k in sizes && k in store && sizes[k] == store[k] {
      var i :| 0 <= i < |objs| && KeysOf(objs)[i] == k;
      assert objs[i] in objs;
    }
  }

  lemma WithoutBoth(before: map<string, nat>, first: set<string>, second: set<string>)
    ensures before - first - second == before - (first + second)
  {
  }

  lemma SetsJoin(confirmed: set<string>, silent: set<string>, more: set<string>, gone: set<string>)
    requires confirmed !! silent && (confirmed + silent) !! gone && more <= gone
    ensures (confirmed + more) + (silent + (gone - more)) == (confirmed + silent) + gone
    ensures (confirmed + more) !! (silent + (gone - more)) && confirmed !! more
  {
  }

  lemma CleanedStep(before: map<string, nat>, mid: map<string, nat>, after: map<string, nat>, mine: string -> bool,
                    prefix: string, confirmed: set<string>, silent: set<string>, more: set<string>, gone: set<string>)
    requires Cleaned(before, mid, mine, prefix, confirmed, silent)
    requires after == mid - gone && more <= gone <= Listed(mid, prefix) && forall k :: k in gone ==> mine(k)
    ensures Cleaned(before, after, mine, prefix, confirmed + more, silent + (gone - more))
  {
    SetsJoin(confirmed, silent, more, gone);
    WithoutBoth(before, confirmed + silent, gone);
  }

  lemma AccountedStep(before: map<string, nat>, mid: map<string, nat>, gone: set<string>, confirmed: set<string>,
                      more: set<string>)
    requires mid == before - gone && confirmed <= gone && gone <= before.Keys && more <= mid.Keys
    ensures confirmed + more <= before.Keys
    ensures Size(before, confirmed + more) == Plus(Size(before, confirmed), Size(mid, more))
  {
    SizeAgrees(before, mid, more);
    SizeSplit(before, confirmed, more);
  }

  /** The round has used up some of the budget. */
  lemma BudgetStep(mid: map<string, nat>, after: map<string, nat>, prefix: string, batch: seq<string>,
                   fails: map<string, nat>, fails': map<string, nat>, confirmed: set<string>, gone: set<string>,
                         retries: nat)
    requires Settled(mid, after, batch, fails, fails', confirmed, gone) && batch != []
    requires forall k :: k in batch ==> k in Listed(mid, prefix)
    requires forall k :: k in Listed(mid, prefix) ==> Failures(fails, k) <= retries
    ensures Budget(Listed(after, prefix), fails', retries + 1) < Budget(Listed(mid, prefix), fails, retries + 1)
  {
    RoundProgress(Listed(mid, prefix), fails, Listed(after, prefix), fails', retries + 1, batch[0]);
  }

  /** After a round that leaves no key stuck, the failures still count the submissions. */
  lemma ChargesStep(t: seq<Request>, t': seq<Request>, mid: map<string, nat>, after: map<string, nat>, prefix: string,
                    batch: seq<string>, fails: map<string, nat>, fails': map<string, nat>,
                    confirmed: set<string>, gone: set<string>, retries: nat)
    requires Charges(t, mid, prefix, fails, retries) && Settled(mid, after, batch, fails, fails', confirmed, gone)
    requires forall k :: Submitted(t', k) == Submitted(t, k) + if k in batch then 1 else 0
    requires forall k :: k in batch && k in after ==> Failures(fails', k) <= retries
    ensures Charges(t', after, prefix, fails', retries)
  {
  }

  /** The history of one clearing loop: what it started from, sent, and removed. */
  datatype Log = Log(start: seq<Request>, before: map<string, nat>, sent: seq<Request>,
                     confirmed: set<string>, silent: set<string>) {
    function Sent(x: Request): Log {
      this.(sent := sent + [x])
    }

    function Gone(prefix: string, all: seq<string>, more: set<string>, gone: set<string>): Log {
      Log(start, before, sent + [Request.List(prefix, all)] + [Request.Delete(all)],
          confirmed + more, silent + (gone - more))
    }
  }

  ghost predicate Accounted(log: Log, now: map<string, nat>, mine: string -> bool, prefix: string, total: Amount) {
    Cleaned(log.before, now, mine, prefix, log.confirmed, log.silent) && total == Size(log.before, log.confirmed)
  }

  /** What holds between two rounds. */
  ghost predicate InLoop(log: Log, now: map<string, nat>, mine: string -> bool, prefix: string, retries: nat,
                         fails: map<string, nat>, listFails: nat, total: Amount)
  {
    && Accounted(log, now, mine, prefix, total)
    && Tracked(log.sent, mine, prefix, retries, listFails) && Charges(log.sent, now, prefix, fails, retries)
    && Deletes(log.sent) + Budget(Listed(now, prefix), fails, retries + 1)
       <= |Listed(log.before, prefix)| * (retries + 1)
  }

  /** What holds whenever the loop ends. */
  ghost predicate Ended(log: Log, now: map<string, nat>, mine: string -> bool, prefix: string, retries: nat,
                        total: Amount) {
    Accounted(log, now, mine, prefix, total) && Bounded(log.sent, mine, prefix, retries, |Listed(log.before, prefix)|)
  }

  lemma LoopStarts(start: seq<Request>, store: map<string, nat>, mine: string -> bool, prefix: string, retries: nat)
    ensures InLoop(Log(start, store, [], {}, {}), store, mine, prefix, retries, map[], 0, Amount(0, 0))
  {
    FullBudget(Listed(store, prefix), retries + 1);
    assert store - ({} + {}) == store;
  }

  lemma TrackedIsBounded(t: seq<Request>, mine: string -> bool, prefix: string, retries: nat, listFails: nat, n: nat)
    requires Tracked(t, mine, prefix, retries, listFails) && Deletes(t) <= n * (retries + 1)
    ensures Bounded(t, mine, prefix, retries, n)
  {
    Product(retries + 1, Deletes(t));
  }

  lemma LoopEnds(log: Log, now: map<string, nat>, mine: string -> bool, prefix: string, retries: nat,
                 fails: map<string, nat>, listFails: nat, total: Amount)
    requires InLoop(log, now, mine, prefix, retries, fails, listFails, total)
    ensures Ended(log, now, mine, prefix, retries, total)
  {
    TrackedIsBounded(log.sent, mine, prefix, retries, listFails, |Listed(log.before, prefix)|);
  }

  lemma AnyListingEnds(log: Log, now: map<string, nat>, mine: string -> bool, prefix: string, retries: nat,
                       fails: map<string, nat>, listFails: nat, total: Amount, q: Request)
    requires InLoop(log, now, mine, prefix, retries, fails, listFails, total) && !q.Delete? && q.prefix == prefix
    ensures Ended(log.Sent(q), now, mine, prefix, retries, total)
  {
    ListingIsBounded(log.sent, mine, prefix, retries, listFails, |Listed(log.before, prefix)|, q);
  }

  lemma ListErrorStep(log: Log, now: map<string, nat>, mine: string -> bool, prefix: string, retries: nat,
                      fails: map<string, nat>, listFails: nat, total: Amount)
    requires InLoop(log, now, mine, prefix, retries, fails, listFails, total)
    ensures Ended(log.Sent(ListError(prefix)), now, mine, prefix, retries, total)
    ensures listFails < retries ==>
              InLoop(log.Sent(ListError(prefix)), now, mine, prefix, retries, fails, listFails + 1, total)
    ensures listFails == retries ==> Justified(log.Sent(ListError(prefix)).sent, mine, prefix, retries, ListingFailed)
  {
    AnyListingEnds(log, now, mine, prefix, retries, fails, listFails, total, ListError(prefix));
    AfterListError(log.sent, mine, prefix, retries, listFails);
  }

  lemma ListingStep(log: Log, now: map<string, nat>, mine: string -> bool, prefix: string, retries: nat,
                    fails: map<string, nat>, listFails: nat, total: Amount, all: seq<string>)
    requires InLoop(log, now, mine, prefix, retries, fails, listFails, total)
    ensures Ended(log.Sent(Request.List(prefix, all)), now, mine, prefix, retries, total)
    ensures (exists k :: k in all && !mine(k)) ==>
              Justified(log.Sent(Request.List(prefix, all)).sent, mine, prefix, retries, UnknownKeys)
  {
    AnyListingEnds(log, now, mine, prefix, retries, fails, listFails, total, Request.List(prefix, all));
  }

  /** The trace and the counts after a listing and the delete request of all of it. */
  lemma RoundTraffic(t: seq<Request>, now: map<string, nat>, mine: string -> bool, prefix: string, retries: nat,
                     fails: map<string, nat>, listFails: nat, all: seq<string>)
    requires Tracked(t, mine, prefix, retries, listFails) && Charges(t, now, prefix, fails, retries)
    requires 0 < |all| <= BATCH_LIMIT && forall k :: k in all ==> mine(k) && k in Listed(now, prefix)
    ensures var t' := t + [Request.List(prefix, all)] + [Request.Delete(all)];
            && Tracked(t', mine, prefix, retries, 0) && Deletes(t') == Deletes(t) + 1
            && (forall k :: Submitted(t', k) == Submitted(t, k) + if k in all then 1 else 0)
            && ((exists k :: k in all && Failures(fails, k) == retries) ==>
                  Justified(t', mine, prefix, retries, StuckKeys))
  {
    AfterListing(t, mine, prefix, retries, listFails, all);
    AfterDelete(t + [Request.List(prefix, all)], mine, prefix, retries, all);
  }

  /** What the removed keys do to the store and to the counters. */
  lemma RoundAccounted(log: Log, now: map<string, nat>, mine: string -> bool, prefix: string, total: Amount,
                       all: seq<string>, after: map<string, nat>, more: set<string>, gone: set<string>)
    requires Accounted(log, now, mine, prefix, total)
    requires forall k :: k in all ==> mine(k) && k in Listed(now, prefix)
    requires after == now - gone && more <= gone <= Members(all) && more <= now.Keys
    ensures Accounted(log.Gone(prefix, all, more, gone), after, mine, prefix, Plus(total, Size(now, more)))
  {
    CleanedStep(log.before, now, after, mine, prefix, log.confirmed, log.silent, more, gone);
    AccountedStep(log.before, now, log.confirmed + log.silent, log.confirmed, more);
  }

  /** A delete request that was answered or lost: how the loop goes on, and what it has used up. */
  lemma RoundStep(log: Log, now: map<string, nat>, mine: string -> bool, prefix: string, retries: nat,
                  fails: map<string, nat>, listFails: nat, total: Amount, all: seq<string>,
                  after: map<string, nat>, fails': map<string, nat>, more: set<string>, gone: set<string>)
    requires InLoop(log, now, mine, prefix, retries, fails, listFails, total)
    requires 0 < |all| <= BATCH_LIMIT && forall k :: k in all ==> mine(k) && k in Listed(now, prefix)
    requires Settled(now, after, all, fails, fails', more, gone) && more <= now.Keys
    ensures var log' := log.Gone(prefix, all, more, gone);
            && Accounted(log', after, mine, prefix, Plus(total, Size(now, more)))
            && Tracked(log'.sent, mine, prefix, retries, 0)
            && ((forall k :: k in all && k in after ==> Failures(fails', k) <= retries) ==>
                  Charges(log'.sent, after, prefix, fails', retries))
            && ((exists k :: k in all && Failures(fails, k) == retries) ==>
                  Justified(log'.sent, mine, prefix, retries, StuckKeys))
            && Deletes(log'.sent) == Deletes(log.sent) + 1
    ensures Budget(Listed(after, prefix), fails', retries + 1) < Budget(Listed(now, prefix), fails, retries + 1)
  {
    RoundTraffic(log.sent, now, mine, prefix, retries, fails, listFails, all);
    RoundAccounted(log, now, mine, prefix, total, all, after, more, gone);
    BudgetStep(now, after, prefix, all, fails, fails', more, gone, retries);
    if forall k :: k in all && k in after ==> Failures(fails', k) <= retries {
      ChargesStep(log.sent, log.Gone(prefix, all, more, gone).sent, now, after, prefix, all, fails, fails', more, gone,
                  retries);
    }
  }

  /** The requests so far are those before the loop and those of the loop. */
  ghost predicate Traced(trace: seq<Request>, log: Log) {
    trace == log.start + log.sent
  }

  lemma TracedListing(trace: seq<Request>, log: Log, q: Request)
    requires Traced(trace, log)
    ensures Traced(trace + [q], log.Sent(q))
  {
    Grouped(log.start, log.sent, [q]);
  }

  lemma TracedRound(trace: seq<Request>, log: Log, prefix: string, all: seq<string>, more: set<string>,
                    gone: set<string>)
    requires Traced(trace, log.Sent(Request.List(prefix, all)))
    ensures Traced(trace + [Request.Delete(all)], log.Gone(prefix, all, more, gone))
  {
    Grouped(log.start, log.sent + [Request.List(prefix, all)], [Request.Delete(all)]);
  }

  /** The part of a turn after an answered listing that is not empty. */
  method Advance(b: Bucket, ctx: Context, oid: nat, mine: string -> bool, prefix: string, retries: nat,
                 objs: seq<Entry>, fails: map<string, nat>, listFails: nat, keys: nat, bytes: nat, ghost log: Log)
    returns (fails': map<string, nat>, keys': nat, bytes': nat, err: Option<Failure>, ghost log': Log)
    requires Recognizes(mine, oid)
    requires InLoop(log, b.contents, mine, prefix, retries, fails, listFails, Amount(keys, bytes))
    requires objs != [] && |objs| <= BATCH_LIMIT && Reports(b.contents, prefix, objs)
    requires Traced(b.trace, log.Sent(Request.List(prefix, KeysOf(objs))))
    requires Tidy(log.sent, mine)
    modifies b, ctx
    ensures ctx.refusals == old(ctx.refusals) + Refused(err)
    ensures old(ctx.consents) <= ctx.consents && Granted(ctx.consents, |old(b.trace)|, |b.trace|)
    ensures Tidy(log'.sent, mine) <==> err != Some(UnknownKeys)
    ensures log'.start == log.start && log'.before == log.before && Traced(b.trace, log')
    ensures Ended(log', b.contents, mine, prefix, retries, Amount(keys', bytes'))
    ensures err == None ==>
              InLoop(log', b.contents, mine, prefix, retries, fails', 0, Amount(keys', bytes'))
              && Budget(Listed(b.contents, prefix), fails', retries + 1)
                 < Budget(Listed(old(b.contents), prefix), fails, retries + 1)
    ensures err.Some? ==> Justified(log'.sent, mine, prefix, retries, err.value)
    ensures err == Some(UnknownKeys) ==> HoldsForeign(b.contents, prefix, mine)
  {
    ghost var all, now := KeysOf(objs), b.contents;
    ListingStep(log, now, mine, prefix, retries, fails, listFails, Amount(keys, bytes), all);
    ListedEntries(now, prefix, objs);
    ghost var sent, more, gone;
    fails', keys', bytes', err, sent, more, gone := Round(b, ctx, oid, mine, prefix, objs, fails, keys, bytes, retries);
    if sent {
      TracedRound(old(b.trace), log, prefix, all, more, gone);
      RoundStep(log, now, mine, prefix, retries, fails, listFails, Amount(keys, bytes), all, b.contents, fails',
                more, gone);
      log' := log.Gone(prefix, all, more, gone);
      TidyAfterRound(log, prefix, all, more, gone, mine);
      TrackedIsBounded(log'.sent, mine, prefix, retries, 0, |Listed(log.before, prefix)|);
    } else {
      log' := log.Sent(Request.List(prefix, all));
      TidyAfter(log, Request.List(prefix, all), mine);
    }
  }

  lemma TidyAfter(log: Log, q: Request, mine: string -> bool)
    requires Tidy(log.sent, mine)
    ensures Tidy(log.Sent(q).sent, mine) <==> (q.List? ==> AllMine(q.keys, mine))
  {
    TidyJoin(log.sent, [q], mine);
    TidyOne(q, mine);
  }

  lemma TidyAfterRound(log: Log, prefix: string, all: seq<string>, more: set<string>, gone: set<string>,
                       mine: string -> bool)
    requires Tidy(log.sent, mine) && AllMine(all, mine)
    ensures Tidy(log.Gone(prefix, all, more, gone).sent, mine)
  {
    TidyAfter(log, Request.List(prefix, all), mine);
    TidyAfter(log.Sent(Request.List(prefix, all)), Request.Delete(all), mine);
  }

  /** One turn of the loop: a listing, and what follows from its answer. */
  method Turn(b: Bucket, ctx: Context, oid: nat, mine: string -> bool, prefix: string, retries: nat,
              fails: map<string, nat>, listFails: nat, keys: nat, bytes: nat, ghost log: Log)
    returns (fails': map<string, nat>, listFails': nat, keys': nat, bytes': nat, done: bool, err: Option<Failure>,
             ghost log': Log)
    requires Recognizes(mine, oid)
    requires InLoop(log, b.contents, mine, prefix, retries, fails, listFails, Amount(keys, bytes))
    requires Traced(b.trace, log)
    requires Tidy(log.sent, mine)
    modifies b, ctx
    ensures ctx.refusals == old(ctx.refusals) + Refused(err)
    ensures old(ctx.consents) <= ctx.consents && Granted(ctx.consents, |old(b.trace)|, |b.trace|)
    ensures Tidy(log'.sent, mine) <==> err != Some(UnknownKeys)
    ensures !done ==> err == None
    ensures log'.start == log.start && log'.before == log.before && Traced(b.trace, log')
    ensures done ==> Ended(log', b.contents, mine, prefix, retries, Amount(keys', bytes'))
    ensures done && err == None ==> Listed(b.contents, prefix) == {}
    ensures done && err.Some? ==> Justified(log'.sent, mine, prefix, retries, err.value)
    ensures err == Some(UnknownKeys) ==> HoldsForeign(b.contents, prefix, mine)
    ensures !done ==> InLoop(log', b.contents, mine, prefix, retries, fails', listFails', Amount(keys', bytes'))
    ensures var limit := retries + 1; var left, was := Budget(Listed(b.contents, prefix), fails', limit),
                                                       Budget(Listed(old(b.contents), prefix), fails, limit);
            !done ==> left < was || (left == was && listFails < listFails')
  {
    fails', listFails', keys', bytes', done, err, log' := fails, listFails, keys, bytes, true, None, log;
    var up := ctx.Proceed(|b.trace|);
    if !up {
      LoopEnds(log, b.contents, mine, prefix, retries, fails, listFails, Amount(keys, bytes));
      err := Some(Interrupted);
      return;
    }
    var objs := b.List(prefix, BATCH_LIMIT);
    GrantedMore(ctx.consents, |old(b.trace)|, |old(b.trace)|);
    if objs.None? {
      ListErrorStep(log, b.contents, mine, prefix, retries, fails, listFails, Amount(keys, bytes));
      TracedListing(old(b.trace), log, ListError(prefix));
      TidyAfter(log, ListError(prefix), mine);
      log', listFails' := log.Sent(ListError(prefix)), listFails + 1;
      if retries < listFails' {
        err := Some(ListingFailed);
        return;
      }
      up := ctx.Proceed(|b.trace|);
      if !up {
        err := Some(Interrupted);
        return;
      }
      done := false;
      return;
    }
    TracedListing(old(b.trace), log, Request.List(prefix, KeysOf(objs.value)));
    if objs.value == [] {
      ListingStep(log, b.contents, mine, prefix, retries, fails, listFails, Amount(keys, bytes), []);
      assert KeysOf(objs.value) == [];
      log' := log.Sent(Request.List(prefix, []));
      TidyAfter(log, Request.List(prefix, []), mine);
      return;
    }
    fails', keys', bytes', err, log' :=
      Advance(b, ctx, oid, mine, prefix, retries, objs.value, fails, listFails, keys, bytes, log);
    listFails', done := 0, err != None;
  }

  /**
   The clearing loop: list from the start of the prefix and delete what is listed until the
   listing comes back empty. It ends under any failures: with `n` keys and `retries` retries,
   no key is submitted more than `retries + 1` times, at most `n * (retries + 1)` delete
   requests are sent, and at most `(retries + 1) * (deletes + 1)` listings.
   */
  method EmptyPrefix(b: Bucket, ctx: Context, oid: nat, mine: string -> bool, prefix: string, retries: nat)
    returns (keys: nat, bytes: nat, err: Option<Failure>, ghost log: Log)
    requires Recognizes(mine, oid)
    modifies b, ctx
    ensures ctx.refusals == old(ctx.refusals) + Refused(err)
    ensures old(ctx.consents) <= ctx.consents && Granted(ctx.consents, |old(b.trace)|, |b.trace|)
    ensures err == Some(UnknownKeys) <==> !Tidy(log.sent, mine)
    ensures log.before == old(b.contents) && b.trace == old(b.trace) + log.sent
    ensures Ended(log, b.contents, mine, prefix, retries, Amount(keys, bytes))
    ensures err == None ==> Listed(b.contents, prefix) == {}
    ensures err.Some? ==> Justified(log.sent, mine, prefix, retries, err.value)
    ensures err == Some(UnknownKeys) ==> HoldsForeign(b.contents, prefix, mine)
  {
    var fails: map<string, nat>, listFails, done := map[], 0, false;
    keys, bytes, err, log := 0, 0, None, Log(b.trace, b.contents, [], {}, {});
    LoopStarts(b.trace, b.contents, mine, prefix, retries);
    while !done
      invariant log.start == old(b.trace) && log.before == old(b.contents) && Traced(b.trace, log)
      invariant ctx.refusals == old(ctx.refusals) + Refused(err) && (!done ==> err == None)
      invariant old(ctx.consents) <= ctx.consents && Granted(ctx.consents, |old(b.trace)|, |b.trace|)
      invariant Tidy(log.sent, mine) <==> err != Some(UnknownKeys)
      invariant !done ==> InLoop(log, b.contents, mine, prefix, retries, fails, listFails, Amount(keys, bytes))
      invariant done ==> Ended(log, b.contents, mine, prefix, retries, Amount(keys, bytes))
      invariant done && err == None ==> Listed(b.contents, prefix) == {}
      invariant done && err.Some? ==> Justified(log.sent, mine, prefix, retries, err.value)
      invariant err == Some(UnknownKeys) ==> HoldsForeign(b.contents, prefix, mine)
      decreases !done, Budget(Listed(b.contents, prefix), fails, retries + 1), retries - listFails
    {
      fails, listFails, keys, bytes, done, err, log :=
        Turn(b, ctx, oid, mine, prefix, retries, fails, listFails, keys, bytes, log);
    }
  }

  // ---------------------------------------------------------------- dry run

  /** Count of the pieces of the object among some listed entries. */
  function Tally(objs: seq<Entry>, mine: string -> bool): Amount {
    if objs == [] then Amount(0, 0)
    else
      var e := objs[|objs| - 1];
      Plus(Tally(objs[..|objs| - 1], mine), if mine(e.key) then Amount(1, e.size) else Amount(0, 0))
  }

  predicate AllPieces(objs: seq<Entry>, mine: string -> bool) {
    forall e :: e in objs ==> mine(e.key)
  }

  lemma {:induction false} TallyIsSize(objs: seq<Entry>, mine: string -> bool, store: map<string, nat>)
    requires Distinct(KeysOf(objs)) && AllPieces(objs, mine)
    requires forall e :: e in objs ==> e.key in store && e.size == store[e.key]
    ensures Members(KeysOf(objs)) <= store.Keys && Tally(objs, mine) == Size(store, Members(KeysOf(objs)))
  {
    if objs != [] {
      var init, e := objs[..|objs| - 1], objs[|objs| - 1];
      assert KeysOf(objs) == KeysOf(init) + [e.key];
      MembersSnoc(KeysOf(init), e.key);
      assert KeysOf(objs)[|objs| - 1] == e.key;
      TallyIsSize(init, mine, store);
      SizeRemove(store, Members(KeysOf(objs)), e.key);
      assert Members(KeysOf(objs)) - {e.key} == Members(KeysOf(init));
      PlusCommutes(Amount(1, e.size), Tally(init, mine));
    }
  }

  /** How many entries are not pieces of the object. */
  function Foreign(objs: seq<Entry>, mine: string -> bool): nat {
    if objs == [] then 0
    else Foreign(objs[..|objs| - 1], mine) + if mine(objs[|objs| - 1].key) then 0 else 1
  }

  lemma {:induction false} NoForeign(objs: seq<Entry>, mine: string -> bool)
    ensures Foreign(objs, mine) == 0 <==> AllPieces(objs, mine)
  {
    if objs != [] {
      var init, e := objs[..|objs| - 1], objs[|objs| - 1];
      assert objs == init + [e];
      NoForeign(init, mine);
    }
  }

  /** What the preview has counted. */
  ghost predicate Counting(all: seq<Entry>, mine: string -> bool, keys: nat, bytes: nat, rejected: seq<string>) {
    Tally(all, mine) == Amount(keys, bytes) && |rejected| == Foreign(all, mine)
  }

  lemma CountOne(all: seq<Entry>, e: Entry, mine: string -> bool, keys: nat, bytes: nat, rejected: seq<string>)
    requires Counting(all, mine, keys, bytes, rejected)
    ensures if mine(e.key) then Counting(all + [e], mine, keys + 1, bytes + e.size, rejected)
            else Counting(all + [e], mine, keys, bytes, rejected + [e.key])
  {
    assert (all + [e])[..|all|] == all;
  }

  /** Counting one page, and setting foreign keys apart. */
  method CountPage(page: seq<Entry>, mine: string -> bool, keys: nat, bytes: nat, rejected: seq<string>,
                   ghost all: seq<Entry>)
    returns (keys': nat, bytes': nat, rejected': seq<string>)
    requires Counting(all, mine, keys, bytes, rejected)
    ensures Counting(all + page, mine, keys', bytes', rejected')
  {
    keys', bytes', rejected' := keys, bytes, rejected;
    assert all + page[..0] == all;
    for i := 0 to |page|
      invariant Counting(all + page[..i], mine, keys', bytes', rejected')
    {
      CountOne(all + page[..i], page[i], mine, keys', bytes', rejected');
      assert all + page[..i + 1] == all + page[..i] + [page[i]];
      if mine(page[i].key) {
        keys', bytes' := keys' + 1, bytes' + page[i].size;
      } else {
        rejected' := rejected' + [page[i].key];
      }
    }
    assert page[..|page|] == page;
  }

  /** What has been listed so far: entries of the prefix, each key once, and what is left. */
  ghost predicate Paged(store: map<string, nat>, prefix: string, all: seq<Entry>, left: set<string>) {
    && (forall e :: e in all ==> e.key in Listed(store, prefix) && e.size == store[e.key])
    && Distinct(KeysOf(all)) && Members(KeysOf(all)) !! left && Members(KeysOf(all)) + left == Listed(store, prefix)
  }

  lemma PagedGrows(store: map<string, nat>, prefix: string, all: seq<Entry>, left: set<string>, page: seq<Entry>,
                   rest: set<string>)
    requires Paged(store, prefix, all, left) && Distinct(KeysOf(page)) && Members(KeysOf(page)) !! rest
    requires Members(KeysOf(page)) + rest == left
    requires forall e :: e in page ==> e.key in left && e.size == store[e.key]
    ensures Paged(store, prefix, all + page, rest) && (page != [] ==> rest < left)
  {
    KeysJoin(all, page);
    JoinDistinct(KeysOf(all), KeysOf(page));
    if page != [] {
      assert KeysOf(page)[0] in Members(KeysOf(page));
    }
  }

  lemma PiecesAreMine(objs: seq<Entry>, mine: string -> bool)
    ensures AllMine(KeysOf(objs), mine) <==> AllPieces(objs, mine)
  {
    if AllMine(KeysOf(objs), mine) {
      forall e | e in objs ensures mine(e.key) {
        var i :| 0 <= i < |objs| && objs[i] == e;
        assert KeysOf(objs)[i] == e.key;
      }
    }
    if AllPieces(objs, mine) {
      forall k | k in KeysOf(objs) ensures mine(k) {
        var i :| 0 <= i < |objs| && KeysOf(objs)[i] == k;
        assert objs[i] in objs;
      }
    }
  }

  /** All requests are listings of the prefix. */
  ghost predicate Listings(sent: seq<Request>, prefix: string) {
    forall i :: 0 <= i < |sent| ==> !sent[i].Delete? && sent[i].prefix == prefix
  }

  /** What the preview has seen so far: it is tidy as long as all entries are pieces of the object. */
  ghost predicate Seen(sent: seq<Request>, prefix: string, all: seq<Entry>, mine: string -> bool) {
    Listings(sent, prefix) && (Tidy(sent, mine) <==> AllPieces(all, mine))
  }

  lemma SeenMore(sent: seq<Request>, prefix: string, all: seq<Entry>, page: seq<Entry>, mine: string -> bool)
    requires Seen(sent, prefix, all, mine)
    ensures Seen(sent + [Request.List(prefix, KeysOf(page))], prefix, all + page, mine)
  {
    TidyJoin(sent, [Request.List(prefix, KeysOf(page))], mine);
    TidyOne(Request.List(prefix, KeysOf(page)), mine);
    PiecesAreMine(page, mine);
    assert AllPieces(all + page, mine) <==> AllPieces(all, mine) && AllPieces(page, mine) by {
      assert forall e :: e in all + page <==> e in all || e in page;
    }
  }

  lemma SeenError(sent: seq<Request>, prefix: string, all: seq<Entry>, mine: string -> bool)
    requires Seen(sent, prefix, all, mine)
    ensures Seen(sent + [ListError(prefix)], prefix, all, mine)
  {
    TidyJoin(sent, [ListError(prefix)], mine);
    TidyOne(ListError(prefix), mine);
  }

  /** One page of the preview: listed and counted. */
  method PreviewPage(b: Bucket, mine: string -> bool, prefix: string, left: set<string>, keys: nat, bytes: nat,
                     rejected: seq<string>, ghost all: seq<Entry>)
    returns (ok: bool, rest: set<string>, keys': nat, bytes': nat, rejected': seq<string>, ghost page: seq<Entry>)
    requires Paged(b.contents, prefix, all, left) && Counting(all, mine, keys, bytes, rejected)
    modifies b`trace
    ensures b.trace == old(b.trace) + [if ok then Request.List(prefix, KeysOf(page)) else ListError(prefix)]
    ensures |b.trace| == |old(b.trace)| + 1
    ensures ok ==> Paged(b.contents, prefix, all + page, rest) && Counting(all + page, mine, keys', bytes', rejected')
    ensures ok ==> rest == {} || rest < left
  {
    var listed: Option<seq<Entry>>;
    listed, rest := b.NextPage(prefix, left);
    if listed.None? {
      return false, left, keys, bytes, rejected, [];
    }
    page := listed.value;
    PagedGrows(b.contents, prefix, all, left, page, rest);
    keys', bytes', rejected' := CountPage(listed.value, mine, keys, bytes, rejected, all);
    ok := true;
  }

  /** Between two pages: consent for every page but the first, and for the next one unless it is the first. */
  ghost predicate Asked(consents: set<nat>, from: nat, now: nat) {
    from <= now && Granted(consents, from + 1, now) && (now == from || now in consents)
  }

  lemma AskedOnce(consents: set<nat>, from: nat, now: nat)
    requires Asked(consents, from, now)
    ensures Granted(consents, from + 1, now + 1)
  {
  }

  lemma AskedAgain(consents: set<nat>, from: nat, now: nat)
    requires from < now && Granted(consents, from + 1, now) && now in consents
    ensures Asked(consents, from, now)
  {
  }

  /** What the requests of a preview say about its outcome. */
  ghost predicate PreviewTold(sent: seq<Request>, mine: string -> bool, prefix: string, err: Option<Failure>) {
    && Listings(sent, prefix)
    && (err.Some? ==> err.value.Interrupted? || err.value.ListingFailed? || err.value.UnknownKeys?)
    && (err == Some(ListingFailed) <==> sent != [] && sent[|sent| - 1] == ListError(prefix))
    && (err == Some(UnknownKeys) ==> !Tidy(sent, mine)) && (err == None ==> Tidy(sent, mine))
  }

  /**
   The preview of one prefix, page by page: counts its pieces, deletes nothing, and reports
   foreign keys once all pages have been seen.
   */
  method PreviewPrefix(b: Bucket, ctx: Context, mine: string -> bool, prefix: string)
    returns (keys: nat, bytes: nat, err: Option<Failure>, ghost sent: seq<Request>)
    modifies b`trace, ctx
    ensures ctx.refusals == old(ctx.refusals) + Refused(err)
    ensures old(ctx.consents) <= ctx.consents && Granted(ctx.consents, |old(b.trace)| + 1, |b.trace|)
    ensures err == None ==> |b.trace| in ctx.consents
    ensures b.trace == old(b.trace) + sent && PreviewTold(sent, mine, prefix, err)
    ensures err == None ==> Amount(keys, bytes) == Size(b.contents, Listed(b.contents, prefix))
    ensures err == None ==> forall k :: k in Listed(b.contents, prefix) ==> mine(k)
    ensures err == Some(UnknownKeys) ==> HoldsForeign(b.contents, prefix, mine)
  {
    keys, bytes, err, sent := 0, 0, None, [];
    var rejected: seq<string> := [];
    var left := Listed(b.contents, prefix);
    ghost var all: seq<Entry> := [];
    while true
      invariant Paged(b.contents, prefix, all, left) && Counting(all, mine, keys, bytes, rejected)
      invariant b.trace == old(b.trace) + sent && Seen(sent, prefix, all, mine) && AllAnswered(sent)
      invariant ctx.refusals == old(ctx.refusals)
      invariant old(ctx.consents) <= ctx.consents && Asked(ctx.consents, |old(b.trace)|, |b.trace|)
      decreases left
    {
      var ok;
      ghost var page;
      AskedOnce(ctx.consents, |old(b.trace)|, |b.trace|);
      ok, left, keys, bytes, rejected, page := PreviewPage(b, mine, prefix, left, keys, bytes, rejected, all);
      if !ok {
        SeenError(sent, prefix, all, mine);
        Grouped(old(b.trace), sent, [ListError(prefix)]);
        return keys, bytes, Some(ListingFailed), sent + [ListError(prefix)];
      }
      SeenMore(sent, prefix, all, page, mine);
      Grouped(old(b.trace), sent, [Request.List(prefix, KeysOf(page))]);
      sent, all := sent + [Request.List(prefix, KeysOf(page))], all + page;
      var up := ctx.Proceed(|b.trace|);
      if !up {
        return keys, bytes, Some(Interrupted), sent;
      }
      AskedAgain(ctx.consents, |old(b.trace)|, |b.trace|);
      if left == {} {
        break;
      }
    }
    NoForeign(all, mine);
    Previewed(b.contents, prefix, all, mine);
    if rejected != [] {
      err := Some(UnknownKeys);
    }
  }

  ghost predicate AllAnswered(sent: seq<Request>) {
    forall i :: 0 <= i < |sent| ==> sent[i].List?
  }

  lemma Previewed(store: map<string, nat>, prefix: string, objs: seq<Entry>, mine: string -> bool)
    requires Paged(store, prefix, objs, {})
    ensures AllPieces(objs, mine) ==>
              && Tally(objs, mine) == Size(store, Listed(store, prefix))
              && forall k :: k in Listed(store, prefix) ==> mine(k)
    ensures !AllPieces(objs, mine) ==> exists k :: k in Listed(store, prefix) && !mine(k)
  {
    assert Members(KeysOf(objs)) == Listed(store, prefix);
    if AllPieces(objs, mine) {
      TallyIsSize(objs, mine, store);
      forall k | k in Listed(store, prefix) ensures mine(k) {
        assert k in Members(KeysOf(objs));
        var i :| 0 <= i < |objs| && KeysOf(objs)[i] == k;
        assert objs[i] in objs;
      }
    } else {
      var e :| e in objs && !mine(e.key);
    }
  }

  // ---------------------------------------------------------------- one object

  datatype Options = Options(bucket: string, retries: nat, dryRun: bool)

  /** What one attempt produced; `skeys` and `ekeys` split the keys by prefix. */
  datatype Attempt = Attempt(keys: nat, bytes: nat, skeys: nat, ekeys: nat, err: Option<Failure>)

  /** No delete request among the requests added to a trace. */
  ghost predicate ReadOnly(before: seq<Request>, after: seq<Request>) {
    before <= after && forall i :: |before| <= i < |after| ==> !after[i].Delete?
  }

  /** Every delete request among the requests added is a limited batch of the object's own pieces. */
  ghost predicate OnlyMine(before: seq<Request>, after: seq<Request>, mine: string -> bool) {
    before <= after
    && forall i :: |before| <= i < |after| && after[i].Delete? ==>
         0 < |after[i].batch| <= BATCH_LIMIT && forall k :: k in after[i].batch ==> mine(k)
  }

  lemma LogIsMine(before: seq<Request>, sent: seq<Request>, mine: string -> bool, prefix: string)
    requires DeletesWhatWasListed(sent, mine, prefix)
    ensures OnlyMine(before, before + sent, mine)
  {
    var after := before + sent;
    forall i | |before| <= i < |after| && after[i].Delete?
      ensures 0 < |after[i].batch| <= BATCH_LIMIT && forall k :: k in after[i].batch ==> mine(k)
    {
      assert after[i] == sent[i - |before|];
    }
  }

  /** What the requests of one prefix say about its outcome. */
  ghost predicate Told(sent: seq<Request>, mine: string -> bool, prefix: string, opt: Options, err: Option<Failure>) {
    if opt.dryRun then PreviewTold(sent, mine, prefix, err)
    else
      && (err == Some(UnknownKeys) <==> !Tidy(sent, mine))
      && (err.Some? ==> Justified(sent, mine, prefix, opt.retries, err.value))
  }

  lemma ListingsAreReadOnly(before: seq<Request>, sent: seq<Request>, prefix: string, mine: string -> bool)
    requires Listings(sent, prefix)
    ensures ReadOnly(before, before + sent) && OnlyMine(before, before + sent, mine)
  {
  }

  /** clearPrefix: a preview in a dry run, the clearing loop otherwise. */
  method ClearPrefix(b: Bucket, ctx: Context, oid: nat, mine: string -> bool, prefix: string, opt: Options)
    returns (keys: nat, bytes: nat, err: Option<Failure>, ghost confirmed: set<string>, ghost silent: set<string>,
             ghost sent: seq<Request>)
    requires Recognizes(mine, oid)
    modifies b, ctx
    ensures ctx.refusals == old(ctx.refusals) + Refused(err)
    ensures old(ctx.consents) <= ctx.consents
    ensures Granted(ctx.consents, |old(b.trace)| + if opt.dryRun then 1 else 0, |b.trace|)
    ensures opt.dryRun && err == None ==> |b.trace| in ctx.consents
    ensures b.trace == old(b.trace) + sent && Told(sent, mine, prefix, opt, err)
    ensures Cleaned(old(b.contents), b.contents, mine, prefix, confirmed, silent)
    ensures OnlyMine(old(b.trace), b.trace, mine)
    ensures !opt.dryRun ==> Amount(keys, bytes) == Size(old(b.contents), confirmed)
    ensures !opt.dryRun && err == None ==> Listed(b.contents, prefix) == {}
    ensures opt.dryRun ==> b.contents == old(b.contents) && confirmed == {} && ReadOnly(old(b.trace), b.trace)
    ensures opt.dryRun && err == None ==>
              Amount(keys, bytes) == Size(b.contents, Listed(b.contents, prefix))
              && forall k :: k in Listed(b.contents, prefix) ==> mine(k)
    ensures err == Some(UnknownKeys) ==> HoldsForeign(b.contents, prefix, mine)
  {
    ghost var trace := b.trace;
    if opt.dryRun {
      keys, bytes, err, sent := PreviewPrefix(b, ctx, mine, prefix);
      ListingsAreReadOnly(trace, sent, prefix, mine);
      confirmed, silent := {}, {};
      assert b.contents - ({} + {}) == b.contents;
      return;
    }
    ghost var log := Log([], map[], [], {}, {});
    keys, bytes, err, log := EmptyPrefix(b, ctx, oid, mine, prefix, opt.retries);
    LogIsMine(trace, log.sent, mine, prefix);
    confirmed, silent, sent := log.confirmed, log.silent, log.sent;
  }

  /** What an attempt removed: confirmed keys under each prefix, and keys gone without a word. */
  datatype Removal = Removal(first: set<string>, second: set<string>, silent: set<string>) {
    function Confirmed(): set<string> {
      first + second
    }

    function All(): set<string> {
      first + second + silent
    }
  }

  /** The store after an attempt: only pieces of the object are gone, and the counters say how many. */
  ghost predicate Removed(before: map<string, nat>, after: map<string, nat>, mine: string -> bool, r: Removal) {
    && after == before - r.All() && r.All() <= before.Keys && (forall k :: k in r.All() ==> mine(k))
    && r.first !! r.second && r.Confirmed() !! r.silent
  }

  ghost predicate Counted(before: map<string, nat>, r: Removal, a: Attempt)
    requires r.All() <= before.Keys
  {
    && a.keys == a.skeys + a.ekeys && Amount(a.keys, a.bytes) == Size(before, r.Confirmed())
    && a.skeys == Size(before, r.first).keys && a.ekeys == Size(before, r.second).keys
  }

  lemma OnePrefix(before: map<string, nat>, mid: map<string, nat>, mine: string -> bool, prefix: string,
                  confirmed: set<string>, silent: set<string>, keys: nat, bytes: nat, err: Option<Failure>)
    requires Cleaned(before, mid, mine, prefix, confirmed, silent) && Amount(keys, bytes) == Size(before, confirmed)
    ensures var r := Removal(confirmed, {}, silent);
            Removed(before, mid, mine, r) && Counted(before, r, Attempt(keys, bytes, keys, 0, err))
  {
    assert confirmed + {} == confirmed;
    assert confirmed + {} + silent == confirmed + silent;
  }

  lemma BothRemoved(before: map<string, nat>, mid: map<string, nat>, after: map<string, nat>, mine: string -> bool,
                    prefix: string, first: set<string>, silent: set<string>, second: set<string>, more: set<string>)
    requires Removed(before, mid, mine, Removal(first, {}, silent)) && Cleaned(mid, after, mine, prefix, second, more)
    ensures Removed(before, after, mine, Removal(first, second, silent + more))
    ensures second <= before.Keys && Size(before, second) == Size(mid, second)
  {
    var gone := first + {} + silent;
    WithoutBoth(before, gone, second + more);
    assert gone + (second + more) == first + second + (silent + more);
    SizeAgrees(before, mid, second);
  }

  lemma AmountsAdd(k: nat, n: nat, k': nat, n': nat, x: Amount, y: Amount, z: Amount)
    requires Amount(k, n) == x && Amount(k', n') == y && z == Plus(x, y)
    ensures z == Amount(k + k', n + n')
  {
  }

  lemma SizesAdd(before: map<string, nat>, first: set<string>, second: set<string>, k: nat, n: nat, k': nat, n': nat)
    requires first + second <= before.Keys && first !! second
    requires Amount(k, n) == Size(before, first) && Amount(k', n') == Size(before, second)
    ensures Size(before, first + second) == Amount(k + k', n + n')
  {
    SizeSplit(before, first, second);
    AmountsAdd(k, n, k', n', Size(before, first), Size(before, second), Size(before, first + second));
  }

  lemma BothCounted(before: map<string, nat>, r: Removal, a: Attempt, n: nat, n': nat)
    requires r.All() <= before.Keys && r.first !! r.second
    requires Amount(a.skeys, n) == Size(before, r.first) && Amount(a.ekeys, n') == Size(before, r.second)
    requires a.keys == a.skeys + a.ekeys && a.bytes == n + n'
    ensures Counted(before, r, a)
  {
    SizesAdd(before, r.first, r.second, a.skeys, n, a.ekeys, n');
  }

  /** How far an attempt came, and what it sent in each part. */
  datatype Way =
    | NotBegun
    | AtFirst(first: seq<Request>)
    | AtSecond(first: seq<Request>, second: seq<Request>)
    | AtRecheck(first: seq<Request>, second: seq<Request>, last: seq<Request>)
  {
    /** The requests by which the prefixes are cleared. */
    function Clearing(): seq<Request> {
      match this
      case NotBegun => []
      case AtFirst(first) => first
      case AtSecond(first, second) => first + second
      case AtRecheck(first, second, _) => first + second
    }

    function Sent(): seq<Request> {
      Clearing() + if AtRecheck? then last else []
    }
  }

  /** The second prefix is taken up only after the first, and what its requests say is the outcome. */
  ghost predicate BothTold(way: Way, mine: string -> bool, prefixes: seq<string>, opt: Options, err: Option<Failure>)
    requires |prefixes| == 2
  {
    match way
    case AtFirst(first) => err.Some? && Told(first, mine, prefixes[0], opt, err)
    case AtSecond(first, second) =>
      Told(first, mine, prefixes[0], opt, None) && Told(second, mine, prefixes[1], opt, err)
    case _ => false
  }

  /** Both prefixes of the object, one after the other. */
  method ClearBoth(b: Bucket, ctx: Context, oid: nat, mine: string -> bool, prefixes: seq<string>, opt: Options)
    returns (a: Attempt, ghost r: Removal, ghost way: Way)
    requires Recognizes(mine, oid) && |prefixes| == 2 && !opt.dryRun
    modifies b, ctx
    ensures ctx.refusals == old(ctx.refusals) + Refused(a.err)
    ensures old(ctx.consents) <= ctx.consents && Granted(ctx.consents, |old(b.trace)|, |b.trace|)
    ensures b.trace == old(b.trace) + way.Clearing() && BothTold(way, mine, prefixes, opt, a.err)
    ensures Removed(old(b.contents), b.contents, mine, r) && Counted(old(b.contents), r, a)
    ensures OnlyMine(old(b.trace), b.trace, mine)
    ensures a.err == None ==> Listed(b.contents, prefixes[0]) == {} && Listed(b.contents, prefixes[1]) == {}
    ensures a.err == Some(UnknownKeys) ==> exists i :: 0 <= i < 2 && HoldsForeign(b.contents, prefixes[i], mine)
  {
    ghost var before, trace := b.contents, b.trace;
    var keys, bytes, err;
    ghost var first, silent, sent;
    keys, bytes, err, first, silent, sent := ClearPrefix(b, ctx, oid, mine, prefixes[0], opt);
    OnePrefix(before, b.contents, mine, prefixes[0], first, silent, keys, bytes, err);
    if err.Some? {
      return Attempt(keys, bytes, keys, 0, err), Removal(first, {}, silent), AtFirst(sent);
    }
    ghost var mid := b.contents;
    var keys', bytes', err';
    ghost var second, more, sent';
    keys', bytes', err', second, more, sent' := ClearPrefix(b, ctx, oid, mine, prefixes[1], opt);
    BothRemoved(before, mid, b.contents, mine, prefixes[1], first, silent, second, more);
    a, r := Attempt(keys + keys', bytes + bytes', keys, keys', err'), Removal(first, second, silent + more);
    way := AtSecond(sent, sent');
    Grouped(trace, sent, sent');
    BothCounted(before, r, a, bytes, bytes');
  }

  /** The preview of both prefixes. */
  method PreviewBoth(b: Bucket, ctx: Context, oid: nat, mine: string -> bool, prefixes: seq<string>, opt: Options)
    returns (a: Attempt, ghost way: Way)
    requires Recognizes(mine, oid) && |prefixes| == 2 && opt.dryRun
    modifies b, ctx
    ensures ctx.refusals == old(ctx.refusals) + Refused(a.err)
    ensures old(ctx.consents) <= ctx.consents && Granted(ctx.consents, |old(b.trace)| + 1, |b.trace|)
    ensures b.trace == old(b.trace) + way.Clearing() && BothTold(way, mine, prefixes, opt, a.err)
    ensures b.contents == old(b.contents) && ReadOnly(old(b.trace), b.trace) && a.keys == a.skeys + a.ekeys
    ensures a.err == None ==>
              && Amount(a.keys, a.bytes) == Plus(Size(b.contents, Listed(b.contents, prefixes[0])),
                                                 Size(b.contents, Listed(b.contents, prefixes[1])))
              && forall k :: k in Listed(b.contents, prefixes[0]) + Listed(b.contents, prefixes[1]) ==> mine(k)
    ensures a.err == Some(UnknownKeys) ==> exists i :: 0 <= i < 2 && HoldsForeign(b.contents, prefixes[i], mine)
  {
    ghost var trace := b.trace;
    var keys, bytes, err;
    ghost var none, gone, sent, sent';
    keys, bytes, err, none, gone, sent := ClearPrefix(b, ctx, oid, mine, prefixes[0], opt);
    if err.Some? {
      return Attempt(keys, bytes, keys, 0, err), AtFirst(sent);
    }
    var keys', bytes', err';
    keys', bytes', err', none, gone, sent' := ClearPrefix(b, ctx, oid, mine, prefixes[1], opt);
    if err' == None {
      ghost var x := Size(b.contents, Listed(b.contents, prefixes[0]));
      ghost var y := Size(b.contents, Listed(b.contents, prefixes[1]));
      AmountsAdd(keys, bytes, keys', bytes', x, y, Plus(x, y));
    }
    Grouped(trace, sent, sent');
    a, way := Attempt(keys + keys', bytes + bytes', keys, keys', err'), AtSecond(sent, sent');
  }

  /** The answers that show the first `n` prefixes empty. */
  function Sightings(prefixes: seq<string>, n: nat): (t: seq<Request>)
    requires n <= |prefixes|
    ensures |t| == n
  {
    seq(n, i requires 0 <= i < n => Request.List(prefixes[i], []))
  }

  /** The read-only re-check of both prefixes: one listing each, until one is not answered with nothing. */
  method Recheck(b: Bucket, ctx: Context, prefixes: seq<string>)
    returns (err: Option<Failure>, ghost sent: seq<Request>)
    requires |prefixes| == 2
    modifies b`trace, ctx
    ensures ctx.refusals == old(ctx.refusals) + Refused(err)
    ensures old(ctx.consents) <= ctx.consents && Granted(ctx.consents, |old(b.trace)|, |b.trace|)
    ensures b.trace == old(b.trace) + sent && RecheckTold(sent, prefixes, err)
    ensures err == None ==> forall i :: 0 <= i < 2 ==> Listed(b.contents, prefixes[i]) == {}
    ensures err == Some(ResidueLeft) ==> exists i :: 0 <= i < 2 && Listed(b.contents, prefixes[i]) != {}
  {
    sent := [];
    for i := 0 to 2
      invariant sent == Sightings(prefixes, i) && b.trace == old(b.trace) + sent
      invariant ctx.refusals == old(ctx.refusals)
      invariant old(ctx.consents) <= ctx.consents && Granted(ctx.consents, |old(b.trace)|, |b.trace|)
      invariant forall j :: 0 <= j < i ==> Listed(b.contents, prefixes[j]) == {}
    {
      var up := ctx.Proceed(|b.trace|);
      if !up {
        assert RecheckStopsAt(sent, prefixes, Some(Interrupted), i);
        return Some(Interrupted), sent;
      }
      var empty := b.Empty(prefixes[i]);
      if empty.None? {
        Grouped(old(b.trace), sent, [ListError(prefixes[i])]);
        sent := sent + [ListError(prefixes[i])];
        assert RecheckStopsAt(sent, prefixes, Some(RecheckFailed), i);
        return Some(RecheckFailed), sent;
      }
      ghost var keys :| b.trace == old(b.trace) + sent + [Request.List(prefixes[i], keys)]
                        && (empty.value <==> keys == []);
      Grouped(old(b.trace), sent, [Request.List(prefixes[i], keys)]);
      if !empty.value {
        sent := sent + [Request.List(prefixes[i], keys)];
        assert sent[..i] == Sightings(prefixes, i);
        assert RecheckStopsAt(sent, prefixes, Some(ResidueLeft), i);
        return Some(ResidueLeft), sent;
      }
      sent := sent + [Request.List(prefixes[i], [])];
      assert Sightings(prefixes, i + 1) == Sightings(prefixes, i) + [Request.List(prefixes[i], [])];
    }
    assert RecheckStopsAt(sent, prefixes, None, 2);
    return None, sent;
  }

  /** What the requests of the re-check say about its outcome. */
  ghost predicate RecheckTold(sent: seq<Request>, prefixes: seq<string>, err: Option<Failure>)
    requires |prefixes| == 2
  {
    exists n: nat :: n <= 2 && RecheckStopsAt(sent, prefixes, err, n)
  }

  ghost predicate RecheckStopsAt(sent: seq<Request>, prefixes: seq<string>, err: Option<Failure>, n: nat)
    requires n <= |prefixes| == 2
  {
    match err
    case None => n == 2 && sent == Sightings(prefixes, 2)
    case Some(Interrupted) => n < 2 && sent == Sightings(prefixes, n)
    case Some(RecheckFailed) => n < 2 && sent == Sightings(prefixes, n) + [ListError(prefixes[n])]
    case Some(ResidueLeft) =>
      n < 2 && |sent| == n + 1 && sent[..n] == Sightings(prefixes, n)
      && sent[n].List? && sent[n].prefix == prefixes[n] && sent[n].keys != []
    case _ => false
  }

  /** The object the chain must report for a claimed one. */
  function Approved(c: Claimed, opt: Options): ObjectHead {
    ObjectHead(c.oid, opt.bucket, c.status, c.version, c.payload)
  }

  /**
   The outcome of an attempt, by the chain's answer and the requests sent: without an approving
   answer nothing is sent, and it is a mismatch if there was one; otherwise what the requests for
   the prefixes say, and once both are cleared what those of the re-check say.
   */
  ghost predicate AttemptTold(way: Way, c: Claimed, head: Option<ObjectHead>, mine: string -> bool,
                              prefixes: seq<string>, opt: Options, err: Option<Failure>)
    requires |prefixes| == 2
  {
    match way
    case NotBegun =>
      || err == Some(Interrupted)
      || (if head.None? then err == Some(ChainUnavailable)
          else head.value != Approved(c, opt) && err == Some(IdentityMismatch))
    case AtRecheck(first, second, last) =>
      && head == Some(Approved(c, opt)) && !opt.dryRun
      && BothTold(AtSecond(first, second), mine, prefixes, opt, None) && RecheckTold(last, prefixes, err)
    case _ =>
      head == Some(Approved(c, opt)) && (opt.dryRun || err.Some?) && BothTold(way, mine, prefixes, opt, err)
  }

  lemma BothTidy(way: Way, mine: string -> bool, prefixes: seq<string>, opt: Options, err: Option<Failure>)
    requires |prefixes| == 2 && !opt.dryRun && BothTold(way, mine, prefixes, opt, err)
    ensures err == Some(UnknownKeys) <==> !Tidy(way.Clearing(), mine)
    ensures err != Some(IdentityMismatch)
  {
    if way.AtSecond? {
      TidyJoin(way.first, way.second, mine);
    }
  }

  /**
   An attempt that was not interrupted ends in a violation exactly when the chain reports another
   object than the approved one, or a listing shows a key that is none of its pieces.
   */
  lemma ViolationExactly(way: Way, c: Claimed, head: Option<ObjectHead>, mine: string -> bool,
                         prefixes: seq<string>, opt: Options, err: Option<Failure>)
    requires |prefixes| == 2 && !opt.dryRun && AttemptTold(way, c, head, mine, prefixes, opt, err)
    requires err != Some(Interrupted)
    ensures err == Some(IdentityMismatch) <==> head.Some? && head.value != Approved(c, opt)
    ensures err == Some(UnknownKeys) <==> !Tidy(way.Clearing(), mine)
    ensures err == Some(ChainUnavailable) <==> head.None?
  {
    match way
    case NotBegun =>
    case AtRecheck(first, second, last) => BothTidy(AtSecond(first, second), mine, prefixes, opt, None);
    case _ => BothTidy(way, mine, prefixes, opt, err);
  }

  /**
   The full sequence for one object: identity check, both prefixes cleared, re-check. The store
   only shrinks, by pieces of this object and nothing else; a dry run and a failed identity
   check remove nothing; no error means that nothing is left under either prefix. The outcome is
   an interruption exactly when the attempt was refused, and else what the chain's answer `head`
   and the requests say.
   */
  method ProcessOne(b: Bucket, ctx: Context, c: Claimed, head: Option<ObjectHead>, mine: string -> bool,
                    prefixes: seq<string>, opt: Options)
    returns (a: Attempt, ghost r: Removal, ghost way: Way)
    requires Recognizes(mine, c.oid) && |prefixes| == 2
    modifies b, ctx
    ensures ctx.refusals == old(ctx.refusals) + Refused(a.err)
    ensures old(ctx.consents) <= ctx.consents && Granted(ctx.consents, |old(b.trace)|, |b.trace|)
    ensures a.err != Some(Interrupted) ==> |old(b.trace)| in ctx.consents
    ensures b.trace == old(b.trace) + way.Sent() && AttemptTold(way, c, head, mine, prefixes, opt, a.err)
    ensures Removed(old(b.contents), b.contents, mine, r) && OnlyMine(old(b.trace), b.trace, mine)
    ensures !opt.dryRun ==> Counted(old(b.contents), r, a)
    ensures opt.dryRun || head != Some(Approved(c, opt)) ==>
              b.contents == old(b.contents) && ReadOnly(old(b.trace), b.trace)
    ensures a.err == None ==> head == Some(Approved(c, opt))
    ensures a.err == None && !opt.dryRun ==>
              Listed(b.contents, prefixes[0]) == {} && Listed(b.contents, prefixes[1]) == {}
              && way.AtRecheck? && way.last == Sightings(prefixes, 2)
    ensures a.err == None && opt.dryRun ==>
              && Amount(a.keys, a.bytes) == Plus(Size(b.contents, Listed(b.contents, prefixes[0])),
                                                 Size(b.contents, Listed(b.contents, prefixes[1])))
              && forall k :: k in Listed(b.contents, prefixes[0]) + Listed(b.contents, prefixes[1]) ==> mine(k)
    ensures a.err == Some(UnknownKeys) ==> exists i :: 0 <= i < 2 && HoldsForeign(b.contents, prefixes[i], mine)
  {
    r, way := Removal({}, {}, {}), NotBegun;
    ghost var trace := b.trace;
    assert b.contents - r.All() == b.contents && trace + way.Sent() == trace;
    var up := ctx.Proceed(|b.trace|);
    if !up {
      return Attempt(0, 0, 0, 0, Some(Interrupted)), r, way;
    }
    if head.None? {
      return Attempt(0, 0, 0, 0, Some(ChainUnavailable)), r, way;
    }
    IdentityIsExact(c, head.value, opt.bucket);
    if IdentityDiff(c, head.value, opt.bucket) != [] {
      return Attempt(0, 0, 0, 0, Some(IdentityMismatch)), r, way;
    }
    if opt.dryRun {
      a, way := PreviewBoth(b, ctx, c.oid, mine, prefixes, opt);
      assert way.Sent() == way.Clearing();
      return;
    }
    a, r, way := ClearBoth(b, ctx, c.oid, mine, prefixes, opt);
    if a.err.Some? {
      assert way.Sent() == way.Clearing();
      return;
    }
    ghost var cleared, mid := way, b.trace;
    var err;
    ghost var last;
    err, last := Recheck(b, ctx, prefixes);
    way := AtRecheck(cleared.first, cleared.second, last);
    RecheckIsReadOnly(trace, mid, last, prefixes, err, mine);
    Grouped(trace, cleared.Clearing(), last);
    a := a.(err := err);
  }

  lemma RecheckIsReadOnly(trace: seq<Request>, mid: seq<Request>, last: seq<Request>, prefixes: seq<string>,
                          err: Option<Failure>, mine: string -> bool)
    requires |prefixes| == 2 && RecheckTold(last, prefixes, err) && OnlyMine(trace, mid, mine)
    ensures OnlyMine(trace, mid + last, mine)
  {
    var n: nat :| n <= 2 && RecheckStopsAt(last, prefixes, err, n);
    forall i | 0 <= i < |last| ensures !last[i].Delete? {
      assert i < n ==> last[i] == last[..n][i];
    }
  }
}
