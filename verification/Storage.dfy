/**
 Object storage (internal/s3store): what is listed under a prefix, and the bucket behind the
 tool's two requests. Replies are adversarial: a request may fail before or after its effect,
 any key of a batch may be refused, and a refused key may be gone all the same.
 */
module Storage {
  import opened Wrappers
  import PieceKeys

  /** The keys a prefix lists. */
  function Listed(store: map<string, nat>, prefix: string): set<string> {
    set k | k in store && prefix <= k
  }

  // ---------------------------------------------------------------- amounts

  datatype Amount = Amount(keys: nat, bytes: nat)

  function Plus(a: Amount, b: Amount): Amount {
    Amount(a.keys + b.keys, a.bytes + b.bytes)
  }

  ghost function Pick(keys: set<string>): (k: string)
    requires keys != {}
    ensures k in keys
  {
    var k :| k in keys;
    k
  }

  /** How many keys and how many bytes some keys of the store are. */
  ghost function Size(store: map<string, nat>, keys: set<string>): Amount
    requires keys <= store.Keys
    decreases |keys|
  {
    if keys == {} then Amount(0, 0)
    else Plus(Amount(1, store[Pick(keys)]), Size(store, keys - {Pick(keys)}))
  }

  lemma PlusSwap(a: Amount, b: Amount, c: Amount)
    ensures Plus(a, Plus(b, c)) == Plus(b, Plus(a, c)) && Plus(Plus(a, b), c) == Plus(a, Plus(b, c))
  {
  }

  lemma {:induction false} SizeRemove(store: map<string, nat>, keys: set<string>, x: string)
    requires keys <= store.Keys && x in keys
    ensures Size(store, keys) == Plus(Amount(1, store[x]), Size(store, keys - {x}))
    decreases |keys|
  {
    var k := Pick(keys);
    if k != x {
      SizeRemove(store, keys - {k}, x);
      SizeRemove(store, keys - {x}, k);
      assert keys - {k} - {x} == keys - {x} - {k};
      PlusSwap(Amount(1, store[k]), Amount(1, store[x]), Size(store, keys - {x} - {k}));
    }
  }

  lemma PlusNothing(a: Amount)
    ensures Plus(Amount(0, 0), a) == a && Plus(a, Amount(0, 0)) == a
  {
    match a
    case Amount(keys, bytes) =>
  }

  lemma {:induction false} SizeSplit(store: map<string, nat>, a: set<string>, b: set<string>)
    requires a <= store.Keys && b <= store.Keys && a !! b
    ensures Size(store, a + b) == Plus(Size(store, a), Size(store, b))
    decreases |a|
  {
    if a == {} {
      assert a + b == b;
      PlusNothing(Size(store, b));
    } else {
      var x := Pick(a);
      SizeRemove(store, a + b, x);
      assert a + b - {x} == (a - {x}) + b;
      SizeSplit(store, a - {x}, b);
      PlusSwap(Amount(1, store[x]), Size(store, a - {x}), Size(store, b));
    }
  }

  lemma {:induction false} SizeAgrees(store: map<string, nat>, other: map<string, nat>, keys: set<string>)
    requires keys <= store.Keys && keys <= other.Keys && forall k :: k in keys ==> store[k] == other[k]
    ensures Size(store, keys) == Size(other, keys)
    decreases |keys|
  {
    if keys != {} {
      var k :| k in keys;
      SizeRemove(store, keys, k);
      SizeRemove(other, keys, k);
      SizeAgrees(store, other, keys - {k});
    }
  }

  // ---------------------------------------------------------------- requests and replies

  datatype Entry = Entry(key: string, size: nat)

  /** What went over the wire: an answered listing of a prefix, a failed one, or a delete request. */
  datatype Request = List(prefix: string, keys: seq<string>) | ListError(prefix: string) | Delete(batch: seq<string>)

  predicate Distinct<T(==)>(q: seq<T>) {
    forall i, j :: 0 <= i < j < |q| ==> q[i] != q[j]
  }

  function Members<T>(q: seq<T>): set<T> {
    set x | x in q
  }

  function KeysOf(objs: seq<Entry>): (q: seq<string>)
    ensures |q| == |objs| && forall i :: 0 <= i < |q| ==> q[i] == objs[i].key
  {
    seq(|objs|, i requires 0 <= i < |objs| => objs[i].key)
  }

  /** A listing reports stored keys of the prefix with their sizes, each once, and is empty only for an empty prefix. */
  ghost predicate Reports(store: map<string, nat>, prefix: string, objs: seq<Entry>) {
    && (forall e :: e in objs ==> e.key in Listed(store, prefix) && e.size == store[e.key])
    && Distinct(KeysOf(objs))
    && (objs == [] ==> Listed(store, prefix) == {})
  }

  lemma MembersSnoc<T>(q: seq<T>, x: T)
    ensures Members(q + [x]) == Members(q) + {x}
    ensures Distinct(q) && x !in q ==> Distinct(q + [x])
  {
  }

  lemma JoinDistinct<T>(p: seq<T>, q: seq<T>)
    requires Distinct(p) && Distinct(q) && Members(p) !! Members(q)
    ensures Distinct(p + q) && Members(p + q) == Members(p) + Members(q)
  {
    forall i, j | 0 <= i < j < |p + q| ensures (p + q)[i] != (p + q)[j] {
      if i < |p| <= j {
        assert p[i] in Members(p) && q[j - |p|] in Members(q);
      }
    }
  }

  /** The entries of all pages, page after page. */
  function Flat<T>(pages: seq<seq<T>>): seq<T> {
    if pages == [] then [] else Flat(pages[..|pages| - 1]) + pages[|pages| - 1]
  }

  lemma FlatSnoc<T>(pages: seq<seq<T>>, page: seq<T>)
    ensures Flat(pages + [page]) == Flat(pages) + page
  {
    assert (pages + [page])[..|pages|] == pages;
  }

  lemma Grouped<T>(a: seq<T>, b: seq<T>, c: seq<T>)
    ensures a + b + c == a + (b + c)
  {
  }

  lemma KeysJoin(a: seq<Entry>, b: seq<Entry>)
    ensures KeysOf(a + b) == KeysOf(a) + KeysOf(b)
  {
  }

  /** Any selection of up to `max` of the given keys; not empty unless there are none. */
  method PickPage(store: map<string, nat>, left: set<string>, max: nat) returns (page: seq<Entry>, rest: set<string>)
    requires left <= store.Keys && 0 < max
    ensures |page| <= max && Distinct(KeysOf(page)) && Members(KeysOf(page)) !! rest
    ensures Members(KeysOf(page)) + rest == left
    ensures forall e :: e in page ==> e.key in left && e.size == store[e.key]
    ensures page == [] <==> left == {}
  {
    page, rest := [], left;
    while |page| < max && rest != {}
      invariant |page| <= max && Distinct(KeysOf(page)) && Members(KeysOf(page)) !! rest
      invariant Members(KeysOf(page)) + rest == left
      invariant forall e :: e in page ==> e.key in left && e.size == store[e.key]
      invariant page == [] ==> rest == left
      decreases rest
    {
      var k :| k in rest;
      var next := page + [Entry(k, store[k])];
      assert KeysOf(next) == KeysOf(page) + [k];
      assert Members(KeysOf(next)) == Members(KeysOf(page)) + {k};
      assert k !in Members(KeysOf(page));
      page, rest := next, rest - {k};
      if * {
        break;
      }
    }
    if page != [] {
      assert KeysOf(page)[0] in Members(KeysOf(page));
    }
  }

  /** The fate of a batch: each key is named once, as deleted or as failed; a failed key may be gone too. */
  method Answer(store: map<string, nat>, keys: seq<string>)
    returns (deleted: seq<string>, failed: seq<string>, gone: set<string>)
    ensures Members(deleted) + Members(failed) == Members(keys) && Members(deleted) !! Members(failed)
    ensures Distinct(deleted) && Distinct(failed)
    ensures Members(deleted) * store.Keys <= gone <= Members(keys) * store.Keys
  {
    deleted, failed, gone := [], [], {};
    for i := 0 to |keys|
      invariant Members(deleted) + Members(failed) == Members(keys[..i]) && Members(deleted) !! Members(failed)
      invariant Distinct(deleted) && Distinct(failed)
      invariant Members(deleted) * store.Keys <= gone <= Members(keys[..i]) * store.Keys
    {
      var k := keys[i];
      MembersSnoc(keys[..i], k);
      assert keys[..i + 1] == keys[..i] + [k];
      if k !in deleted && k !in failed {
        MembersSnoc(deleted, k);
        MembersSnoc(failed, k);
        if * {
          deleted := deleted + [k];
          gone := gone + ({k} * store.Keys);
        } else {
          failed := failed + [k];
          if * {
            gone := gone + ({k} * store.Keys);
          }
        }
      }
    }
    assert keys[..|keys|] == keys;
  }

  datatype DeleteError = TooMany | UnsafeKeys | RequestFailed

  const BATCH_LIMIT := 1000

  class Bucket {
    var contents: map<string, nat>
    /** Every request sent so far. */
    ghost var trace: seq<Request>

    constructor (contents: map<string, nat>)
      ensures this.contents == contents && trace == []
    {
      this.contents, trace := contents, [];
    }

    /** At most `max` keys, always from the start of the prefix; `None` is a request error. */
    method List(prefix: string, max: nat) returns (r: Option<seq<Entry>>)
      requires 0 < max
      modifies this`trace
      ensures r.None? ==> trace == old(trace) + [ListError(prefix)]
      ensures r.Some? ==> trace == old(trace) + [Request.List(prefix, KeysOf(r.value))]
                          && Reports(contents, prefix, r.value) && |r.value| <= max
    {
      if * {
        trace := trace + [ListError(prefix)];
        return None;
      }
      var page, _ := PickPage(contents, Listed(contents, prefix), max);
      trace := trace + [Request.List(prefix, KeysOf(page))];
      return Some(page);
    }

    /** Whether nothing is left under the prefix. */
    method Empty(prefix: string) returns (r: Option<bool>)
      modifies this`trace
      ensures r.Some? ==> (r.value <==> Listed(contents, prefix) == {})
      ensures r.None? ==> trace == old(trace) + [ListError(prefix)]
      ensures r.Some? ==> exists keys :: trace == old(trace) + [Request.List(prefix, keys)] && (r.value <==> keys == [])
    {
      var objs := List(prefix, 1);
      if objs.None? {
        return None;
      }
      if objs.value != [] {
        assert objs.value[0] in objs.value;
      }
      return Some(objs.value == []);
    }

    /** One page of a paging over the prefix: some of the keys not listed yet, or a request error. */
    method NextPage(prefix: string, left: set<string>) returns (page: Option<seq<Entry>>, rest: set<string>)
      requires left <= Listed(contents, prefix)
      modifies this`trace
      ensures page.None? ==> trace == old(trace) + [ListError(prefix)]
      ensures page.Some? ==>
                && trace == old(trace) + [Request.List(prefix, KeysOf(page.value))]
                && |page.value| <= BATCH_LIMIT && (page.value == [] <==> left == {})
                && Distinct(KeysOf(page.value)) && Members(KeysOf(page.value)) !! rest
                && Members(KeysOf(page.value)) + rest == left
                && forall e :: e in page.value ==> e.key in left && e.size == contents[e.key]
    {
      if * {
        trace := trace + [ListError(prefix)];
        return None, left;
      }
      var picked;
      picked, rest := PickPage(contents, left, BATCH_LIMIT);
      trace := trace + [Request.List(prefix, KeysOf(picked))];
      page := Some(picked);
    }

    /**
     The only way to delete. Nothing is sent for an empty or oversize batch or one that holds
     anything but pieces of the object. An answered request names every key of the batch
     exactly once, deleted or failed; a failed request may have deleted anything of the batch.
     */
    method Delete(oid: nat, keys: seq<string>)
      returns (deleted: seq<string>, failed: seq<string>, err: Option<DeleteError>, ghost gone: set<string>)
      modifies this
      ensures contents == old(contents) - gone && gone <= Members(keys) * old(contents.Keys)
      ensures keys == [] ==> err == None
      ensures err == Some(TooMany) <==> BATCH_LIMIT < |keys|
      ensures err == Some(UnsafeKeys) <==> |keys| <= BATCH_LIMIT && exists k :: k in keys && !PieceKeys.PieceOf(oid, k)
      ensures keys == [] || err == Some(TooMany) || err == Some(UnsafeKeys) ==> trace == old(trace) && gone == {}
      ensures !(keys == [] || err == Some(TooMany) || err == Some(UnsafeKeys))
            ==> trace == old(trace) + [Request.Delete(keys)]
      ensures err.Some? ==> deleted == [] && failed == []
      ensures err == None ==> Members(deleted) + Members(failed) == Members(keys) && Members(deleted) !! Members(failed)
      ensures Distinct(deleted)
      ensures Members(deleted) * old(contents.Keys) <= gone
    {
      deleted, failed, err, gone := [], [], None, {};
      if keys == [] {
        return;
      }
      if BATCH_LIMIT < |keys| {
        err := Some(TooMany);
        return;
      }
      var kept, rejected := PieceKeys.KeepOnly(keys, oid);
      if rejected != [] {
        assert rejected[0] in rejected;
        err := Some(UnsafeKeys);
        return;
      }
      trace := trace + [Request.Delete(keys)];
      var vanished;
      deleted, failed, vanished := Answer(contents, keys);
      gone := vanished;
      contents := contents - vanished;
      if * {
        deleted, failed, err := [], [], Some(RequestFailed);
      }
    }
  }
}
