/**
 Keyset paging: `WHERE key > after ORDER BY key LIMIT n`. Three loops of the program page
 this way (the purge feed, the verifier and the source scan), two of them over a set that
 their own work changes, so the facts about one page are proved once, here.
 */
module Keyset {

  /** Strictly increasing. */
  predicate Ascending(q: seq<nat>) {
    forall i, j :: 0 <= i < j < |q| ==> q[i] < q[j]
  }

  function Elements(q: seq<nat>): set<nat> {
    set x | x in q
  }

  predicate IsLeast(s: set<nat>, m: nat) {
    m in s && forall x :: x in s ==> m <= x
  }

  lemma {:induction false} LeastOf(s: set<nat>) returns (m: nat)
    requires s != {}
    ensures IsLeast(s, m)
    decreases |s|
  {
    m :| m in s;
    var rest := s - {m};
    if rest != {} {
      var n := LeastOf(rest);
      assert forall x :: x in s ==> x == m || x in rest;
      m := if n < m then n else m;
    } else {
      assert s == {m};
    }
  }

  lemma MinExists(s: set<nat>)
    requires s != {}
    ensures exists m :: IsLeast(s, m)
  {
    var m := LeastOf(s);
  }

  function Min(s: set<nat>): (m: nat)
    requires s != {}
    ensures IsLeast(s, m)
  {
    MinExists(s);
    var m :| m in s && IsLeast(s, m);
    m
  }

  lemma ConsFacts(m: nat, rest: seq<nat>)
    requires Ascending(rest) && forall x :: x in Elements(rest) ==> m < x
    ensures Ascending([m] + rest) && Elements([m] + rest) == {m} + Elements(rest)
  {
    forall i, j | 0 <= i < j < |[m] + rest| ensures ([m] + rest)[i] < ([m] + rest)[j] {
      assert ([m] + rest)[j] == rest[j - 1] && rest[j - 1] in Elements(rest);
    }
  }

  /** `ORDER BY key`: the elements of a set, ascending. */
  function Sorted(s: set<nat>): (q: seq<nat>)
    ensures Ascending(q) && Elements(q) == s && |q| == |s|
    decreases |s|
  {
    if s == {} then []
    else
      var m := Min(s);
      var rest := Sorted(s - {m});
      ConsFacts(m, rest);
      [m] + rest
  }

  lemma NoElements(q: seq<nat>)
    ensures Elements(q) == {} <==> q == []
  {
    if q != [] {
      assert q[0] in Elements(q);
    }
  }

  /** Only one ascending sequence lists a given set. */
  lemma {:induction false} AscendingUnique(p: seq<nat>, q: seq<nat>)
    requires Ascending(p) && Ascending(q) && Elements(p) == Elements(q)
    ensures p == q
    decreases |p|
  {
    if p == [] {
      NoElements(q);
    } else {
      assert p[0] in Elements(p) && p[0] in Elements(q);
      assert q != [];
      assert q[0] in Elements(q) && q[0] in Elements(p);
      assert p[0] <= q[0] && q[0] <= p[0];
      Tail(p);
      Tail(q);
      AscendingUnique(p[1..], q[1..]);
      assert p == [p[0]] + p[1..] && q == [q[0]] + q[1..];
    }
  }

  lemma Tail(q: seq<nat>)
    requires Ascending(q) && q != []
    ensures Ascending(q[1..]) && Elements(q[1..]) == Elements(q) - {q[0]}
  {
    forall x | x in Elements(q) - {q[0]} ensures x in q[1..] {
      var i :| 0 <= i < |q| && q[i] == x;
      assert q[1..][i - 1] == x;
    }
  }

  /** The first `n` elements, or all of them. */
  function Take<T>(q: seq<T>, n: nat): (r: seq<T>)
    ensures |r| <= n && r <= q
    ensures |r| == n || r == q
  {
    if n < |q| then q[..n] else q
  }

  function Above(s: set<nat>, after: nat): set<nat> {
    set x | x in s && after < x
  }

  function UpTo(s: set<nat>, after: nat): set<nat> {
    set x | x in s && x <= after
  }

  /** One page: `WHERE key > after ORDER BY key LIMIT n`. */
  function Page(s: set<nat>, after: nat, n: nat): (r: seq<nat>)
    ensures Ascending(r) && |r| <= n
    ensures forall i :: 0 <= i < |r| ==> r[i] in s && after < r[i]
  {
    var q := Sorted(Above(s, after));
    assert forall i :: 0 <= i < |q| ==> q[i] in Elements(q);
    Take(q, n)
  }

  lemma PrefixIsUpTo(q: seq<nat>, k: nat)
    requires Ascending(q) && 0 < k <= |q|
    ensures Elements(q[..k]) == UpTo(Elements(q), q[k - 1])
  {
    forall x | x in UpTo(Elements(q), q[k - 1]) ensures x in q[..k] {
      var i :| 0 <= i < |q| && q[i] == x;
      assert i < k;
      assert q[..k][i] == x;
    }
    forall x | x in q[..k] ensures x in UpTo(Elements(q), q[k - 1]) {
      var i :| 0 <= i < k && q[..k][i] == x;
      assert i < k - 1 ==> q[i] < q[k - 1];
    }
  }

  /** A page holds the least keys above the cursor: everything up to its last key. */
  lemma PageIsExact(s: set<nat>, after: nat, n: nat)
    requires 0 < n
    ensures var r := Page(s, after, n);
            (r == [] <==> Above(s, after) == {})
            && (r != [] ==> Elements(r) == UpTo(Above(s, after), r[|r| - 1]))
            && (|r| < n ==> Elements(r) == Above(s, after))
  {
    var q := Sorted(Above(s, after));
    var r := Page(s, after, n);
    NoElements(q);
    if r != [] {
      assert r == q[..|r|];
      PrefixIsUpTo(q, |r|);
    }
  }

  lemma SnocFacts(p: seq<nat>, x: nat)
    requires Ascending(p) && forall y :: y in Elements(p) ==> y < x
    ensures Ascending(p + [x]) && Elements(p + [x]) == Elements(p) + {x}
  {
    forall i, j | 0 <= i < j < |p + [x]| ensures (p + [x])[i] < (p + [x])[j] {
      assert p[i] in Elements(p);
    }
  }

  /** Appending the next key above everything listed so far keeps the list exact. */
  lemma SortedExtend(s: set<nat>, x: nat)
    requires forall y :: y in s ==> y < x
    ensures Sorted(s + {x}) == Sorted(s) + [x]
  {
    var p := Sorted(s);
    SnocFacts(p, x);
    AscendingUnique(Sorted(s + {x}), p + [x]);
  }

  // ---------------------------------------------------------------- paging with a cursor

  lemma AppendAscends(p: seq<nat>, q: seq<nat>)
    requires Ascending(p) && Ascending(q)
    requires forall x, y :: x in p && y in q ==> x < y
    ensures Ascending(p + q) && Elements(p + q) == Elements(p) + Elements(q)
  {
    forall i, j | 0 <= i < j < |p + q| ensures (p + q)[i] < (p + q)[j] {
      if i < |p| <= j {
        assert p[i] in p && q[j - |p|] in q;
      }
    }
  }

  lemma SortedAppend(a: set<nat>, b: set<nat>)
    requires forall x, y :: x in a && y in b ==> x < y
    ensures Sorted(a + b) == Sorted(a) + Sorted(b)
  {
    var p, q := Sorted(a), Sorted(b);
    assert forall x :: x in p ==> x in Elements(p);
    assert forall x :: x in q ==> x in Elements(q);
    AppendAscends(p, q);
    AscendingUnique(p + q, Sorted(a + b));
  }

  /** The keys a loop has passed once its cursor is there; cursors start at 0. */
  function Behind(keys: set<nat>, cursor: nat): set<nat> {
    UpTo(Above(keys, 0), cursor)
  }

  /** A page holds every key between where it starts and where it ends. */
  lemma InPage(keys: set<nat>, from: nat, n: nat, page: seq<nat>, o: nat) returns (j: nat)
    requires 0 < n && page == Page(keys, from, n) && page != []
    requires o in keys && from < o <= page[|page| - 1]
    ensures j < |page| && page[j] == o
  {
    PageIsExact(keys, from, n);
    assert o in UpTo(Above(keys, from), page[|page| - 1]);
    assert o in Elements(page);
    j :| 0 <= j < |page| && page[j] == o;
  }

  lemma NextIsLeast(keys: set<nat>, from: nat, n: nat, page: seq<nat>, i: nat)
    requires 0 < n && page == Page(keys, from, n) && i < |page|
    ensures var cursor := if i == 0 then from else page[i - 1];
            cursor < page[i] && page[i] in keys && forall o :: o in keys && cursor < o ==> page[i] <= o
  {
    var cursor := if i == 0 then from else page[i - 1];
    forall o | o in keys && cursor < o ensures page[i] <= o {
      if o <= page[|page| - 1] {
        assert from < o by {
          assert i > 0 ==> from < page[i - 1];
        }
        var j := InPage(keys, from, n, page, o);
        assert i <= j;
      } else {
        assert page[i] <= page[|page| - 1];
      }
    }
  }

  lemma BehindOneMore(keys: set<nat>, cursor: nat, x: nat)
    requires cursor < x && x in keys && forall o :: o in keys && cursor < o ==> x <= o
    ensures Behind(keys, x) == Behind(keys, cursor) + {x}
  {
    forall o ensures o in Behind(keys, x) <==> o in Behind(keys, cursor) + {x} {
    }
  }

  /** With the next key, the list of passed keys grows without a gap. */
  lemma BehindGrows(keys: set<nat>, cursor: nat, x: nat)
    requires cursor < x && x in keys && forall o :: o in keys && cursor < o ==> x <= o
    ensures Sorted(Behind(keys, x)) == Sorted(Behind(keys, cursor)) + [x]
  {
    BehindOneMore(keys, cursor, x);
    SortedExtend(Behind(keys, cursor), x);
  }

  /** Once nothing lies ahead of the cursor, every key is behind it. */
  lemma BehindIsAll(keys: set<nat>, cursor: nat)
    requires Above(keys, cursor) == {}
    ensures Behind(keys, cursor) == Above(keys, 0)
  {
    forall o | o in Above(keys, 0) ensures o <= cursor {
      assert o !in Above(keys, cursor);
    }
  }

  lemma BehindIsPrefix(keys: set<nat>, cursor: nat)
    ensures Sorted(Behind(keys, cursor)) <= Sorted(Above(keys, 0))
  {
    var q := Sorted(Above(keys, 0));
    var k := CountUpTo(q, cursor);
    AscendingUnique(q[..k], Sorted(Behind(keys, cursor)));
  }

  /** How many keys of an ascending list are within the bound. */
  lemma {:induction false} CountUpTo(q: seq<nat>, bound: nat) returns (k: nat)
    requires Ascending(q)
    ensures k <= |q| && Ascending(q[..k]) && Elements(q[..k]) == UpTo(Elements(q), bound)
  {
    k := 0;
    while k < |q| && q[k] <= bound
      invariant k <= |q| && forall i :: 0 <= i < k ==> q[i] <= bound
    {
      k := k + 1;
    }
    forall x | x in UpTo(Elements(q), bound) ensures x in q[..k] {
      var i :| 0 <= i < |q| && q[i] == x;
      assert i < k;
      assert q[..k][i] == x;
    }
  }

  lemma BehindSplits(keys: set<nat>, from: nat, last: nat)
    requires from <= last
    ensures Behind(keys, last) == Behind(keys, from) + UpTo(Above(keys, from), last)
  {
  }

  /** A page continues the list of passed keys. */
  lemma PageContinues(keys: set<nat>, from: nat, n: nat, page: seq<nat>)
    requires 0 < n && page == Page(keys, from, n) && page != []
    ensures from < page[|page| - 1]
    ensures Sorted(Behind(keys, page[|page| - 1])) == Sorted(Behind(keys, from)) + page
  {
    var last := page[|page| - 1];
    var ahead := UpTo(Above(keys, from), last);
    PageIsExact(keys, from, n);
    BehindSplits(keys, from, last);
    SortedAppend(Behind(keys, from), ahead);
    AscendingUnique(page, Sorted(ahead));
  }

  lemma Smaller(a: set<nat>, c: set<nat>, x: nat)
    requires a <= c && x in c && x !in a
    ensures |a| < |c|
  {
    assert c == (c - a) + a;
    assert x in c - a;
  }

  /** Every page leaves fewer keys ahead of the cursor. */
  lemma AheadShrinks(keys: set<nat>, from: nat, later: nat)
    requires from < later && later in keys
    ensures |Above(keys, later)| < |Above(keys, from)|
  {
    var a, c := Above(keys, later), Above(keys, from);
    assert a <= c && later in c && later !in a;
    Smaller(a, c, later);
  }

  /** A page that is not full is the last one. */
  lemma ShortPage(keys: set<nat>, from: nat, n: nat, page: seq<nat>)
    requires page == Page(keys, from, n) && page != [] && |page| < n
    ensures Above(keys, page[|page| - 1]) == {}
  {
    PageIsExact(keys, from, n);
    var last := page[|page| - 1];
    assert page[0] <= last && from < page[0];
    assert Above(keys, from) == UpTo(Above(keys, from), last);
    assert forall x :: x in keys && from < x ==> x in Above(keys, from);
  }
}
