/**
 The piece-key grammar of internal/pieceop: a printer, a parser, and the two list prefixes
 of an object. Every delete of the program is safe only because these agree.
 */
module PieceKeys {
  import opened Wrappers

  /** One piece of one object, with the fields of the program's `Piece`. */
  datatype Piece = Piece(oid: nat, segment: nat, secondary: bool, redundancy: nat, version: int)

  /** The machine widths of the fields. */
  predicate InRange(p: Piece) {
    p.oid < TWO_64 && p.segment < TWO_32 && p.redundancy < TWO_32 && -TWO_63 <= p.version < TWO_63
  }

  // ---------------------------------------------------------------- decimal numbers

  predicate IsDigit(c: char) {
    '0' <= c <= '9'
  }

  predicate AllDigits(s: string) {
    forall i :: 0 <= i < |s| ==> IsDigit(s[i])
  }

  function Decimal(n: nat): string {
    var digit := [(('0' as int) + n % 10) as char];
    if n < 10 then digit else Decimal(n / 10) + digit
  }

  function Value(s: string): nat
    requires AllDigits(s)
  {
    if s == "" then 0
    else Value(s[..|s| - 1]) * 10 + ((s[|s| - 1] as int) - ('0' as int))
  }

  /** `%d` of a signed number. */
  function Signed(v: int): string {
    if v < 0 then "-" + Decimal(-v) else Decimal(v)
  }

  /** `strconv.ParseUint(s, 10, bits)`, with the first value that no longer fits. */
  function ParseUint(s: string, limit: nat): Option<nat> {
    if s == "" || !AllDigits(s) then None
    else if Value(s) < limit then Some(Value(s)) else None
  }

  lemma {:induction false} DecimalValue(n: nat)
    ensures Decimal(n) != "" && AllDigits(Decimal(n)) && Value(Decimal(n)) == n
  {
    if 10 <= n {
      DecimalValue(n / 10);
      var d := Decimal(n);
      assert d[..|d| - 1] == Decimal(n / 10);
    }
  }

  lemma ParseDecimal(n: nat, limit: nat)
    requires n < limit
    ensures ParseUint(Decimal(n), limit) == Some(n)
  {
    DecimalValue(n);
  }

  // ---------------------------------------------------------------- splitting at underscores

  /** `strings.Split(s, "_")`. */
  function Split(s: string): (parts: seq<string>)
    ensures |parts| >= 1
  {
    if s == "" then [""]
    else
      var rest := Split(s[1..]);
      if s[0] == '_' then [""] + rest else [[s[0]] + rest[0]] + rest[1..]
  }

  /** `strings.Join(parts, "_")`. */
  function Join(parts: seq<string>): string
    requires |parts| >= 1
  {
    if |parts| == 1 then parts[0] else parts[0] + "_" + Join(parts[1..])
  }

  lemma {:induction false} SplitFirst(a: string, b: string)
    requires '_' !in a
    ensures Split(a) == [a] && Split(a + "_" + b) == [a] + Split(b)
  {
    var s := a + "_" + b;
    if a == "" {
      assert s[1..] == b;
    } else {
      SplitFirst(a[1..], b);
      assert s[1..] == a[1..] + "_" + b;
      assert [a[0]] + a[1..] == a;
      assert s[0] == a[0] && a[0] in a;
    }
  }

  /** Splitting undoes joining when no part holds an underscore. */
  lemma {:induction false} SplitJoin(parts: seq<string>)
    requires |parts| >= 1 && forall i :: 0 <= i < |parts| ==> '_' !in parts[i]
    ensures Split(Join(parts)) == parts
  {
    if |parts| == 1 {
      SplitFirst(parts[0], "");
    } else {
      SplitJoin(parts[1..]);
      SplitFirst(parts[0], Join(parts[1..]));
    }
  }

  // ---------------------------------------------------------------- printer and parser

  /** The key as the storage provider writes it. */
  function Key(p: Piece): string {
    var k := if p.secondary
             then "e" + Decimal(p.oid) + "_" + ("s" + Decimal(p.segment) + "_" + ("p" + Decimal(p.redundancy)))
             else "s" + Decimal(p.oid) + "_" + ("s" + Decimal(p.segment));
    if p.version == 0 then k else k + "_v" + Signed(p.version)
  }

  /** A tag letter followed by a number. */
  function Num(s: string, tag: char, limit: nat): Option<nat> {
    if |s| < 2 || s[0] != tag then None else ParseUint(s[1..], limit)
  }

  /** Accepts the four layouts, and only in the rendering `Key` gives back. */
  function Parse(key: string): Option<Piece> {
    var parts := Split(key);
    if |parts| < 2 || |parts| > 4 || |parts[0]| < 2 then None
    else if parts[0][0] != 's' && parts[0][0] != 'e' then None
    else
      var secondary := parts[0][0] == 'e';
      var oid :- Num(parts[0], parts[0][0], TWO_64);
      var segment :- Num(parts[1], 's', TWO_32);
      var rest := parts[2..];
      if secondary && rest == [] then None
      else
        var redundancy :- if secondary then Num(rest[0], 'p', TWO_32) else Some(0);
        var tail := if secondary then rest[1..] else rest;
        if |tail| > 1 then None
        else
          var version :- if tail == [] then Some(0) else Num(tail[0], 'v', TWO_63);
          var p := Piece(oid, segment, secondary, redundancy, version);
          if Key(p) == key then Some(p) else None
  }

  /** The pieces the grammar can express. */
  predicate Expressible(p: Piece) {
    p.version >= 0 && (!p.secondary ==> p.redundancy == 0)
  }

  lemma TaggedNumber(tag: char, n: nat, limit: nat)
    requires n < limit && tag != '_'
    ensures Num([tag] + Decimal(n), tag, limit) == Some(n) && '_' !in [tag] + Decimal(n)
  {
    DecimalValue(n);
    ParseDecimal(n, limit);
    var s := [tag] + Decimal(n);
    assert s[1..] == Decimal(n);
    assert forall i :: 0 <= i < |Decimal(n)| ==> IsDigit(Decimal(n)[i]);
    forall c | c in s ensures c != '_' {
      var i :| 0 <= i < |s| && s[i] == c;
      assert i > 0 ==> s[i] == Decimal(n)[i - 1];
    }
  }

  /** The parts that `Parse` sees in a rendered key. */
  function Parts(p: Piece): seq<string>
    requires p.version >= 0
  {
    [(if p.secondary then "e" else "s") + Decimal(p.oid), "s" + Decimal(p.segment)]
    + (if p.secondary then ["p" + Decimal(p.redundancy)] else [])
    + (if p.version == 0 then [] else ["v" + Decimal(p.version)])
  }

  lemma KeyIsJoin(p: Piece)
    requires p.version >= 0
    ensures Key(p) == Join(Parts(p))
  {
    var a := (if p.secondary then "e" else "s") + Decimal(p.oid);
    var b := "s" + Decimal(p.segment);
    var c := "p" + Decimal(p.redundancy);
    var v := "v" + Decimal(p.version);
    if p.secondary && p.version == 0 {
      assert Parts(p) == [a, b, c];
      assert [a, b, c][1..] == [b, c] && [b, c][1..] == [c];
      assert Join([b, c]) == b + "_" + c;
      assert Key(p) == a + "_" + (b + "_" + c);
    } else if p.secondary {
      assert Parts(p) == [a, b, c, v];
      assert [a, b, c, v][1..] == [b, c, v] && [b, c, v][1..] == [c, v] && [c, v][1..] == [v];
      assert Join([c, v]) == c + "_" + v;
      assert Join([b, c, v]) == b + "_" + (c + "_" + v);
      assert Key(p) == a + "_" + (b + "_" + (c + "_" + v));
    } else if p.version == 0 {
      assert Parts(p) == [a, b];
      assert [a, b][1..] == [b];
      assert Key(p) == a + "_" + b;
    } else {
      assert Parts(p) == [a, b, v];
      assert [a, b, v][1..] == [b, v] && [b, v][1..] == [v];
      assert Join([b, v]) == b + "_" + v;
      assert Key(p) == a + "_" + (b + "_" + v);
    }
  }

  lemma SplitKey(p: Piece)
    requires InRange(p) && p.version >= 0
    ensures Split(Key(p)) == Parts(p)
  {
    TaggedNumber(if p.secondary then 'e' else 's', p.oid, TWO_64);
    TaggedNumber('s', p.segment, TWO_32);
    TaggedNumber('p', p.redundancy, TWO_32);
    TaggedNumber('v', p.version, TWO_63);
    KeyIsJoin(p);
    SplitJoin(Parts(p));
  }

  /** What a successful parse says about the piece, the key and the machine widths. */
  lemma ParsedKey(key: string)
    ensures Parse(key).Some? ==>
              var p := Parse(key).value;
              Key(p) == key && Expressible(p) && InRange(p)
  {
  }

  /** Printing then parsing gives the piece back exactly when the grammar can express it. */
  lemma RoundTrip(p: Piece)
    requires InRange(p)
    ensures Parse(Key(p)) == Some(p) <==> Expressible(p)
  {
    ParsedKey(Key(p));
    if Expressible(p) {
      SplitKey(p);
      if p.secondary {
        TaggedNumber('e', p.oid, TWO_64);
      } else {
        TaggedNumber('s', p.oid, TWO_64);
      }
      TaggedNumber('s', p.segment, TWO_32);
      TaggedNumber('p', p.redundancy, TWO_32);
      if p.version != 0 {
        TaggedNumber('v', p.version, TWO_63);
      }
    }
  }

  // ---------------------------------------------------------------- list prefixes

  /** The two prefixes listed for one object: `s<oid>_` and `e<oid>_`. */
  function Prefixes(oid: nat): seq<string> {
    ["s" + Decimal(oid) + "_", "e" + Decimal(oid) + "_"]
  }

  /** The key is listed for the object, under one prefix or the other. */
  predicate Under(oid: nat, key: string) {
    Prefixes(oid)[0] <= key || Prefixes(oid)[1] <= key
  }

  /** The key is a well-formed piece of the object: the only keys that may be deleted for it. */
  predicate PieceOf(oid: nat, key: string) {
    Parse(key).Some? && Parse(key).value.oid == oid
  }

  lemma DecimalInjective(a: nat, b: nat)
    requires Decimal(a) == Decimal(b)
    ensures a == b
  {
    DecimalValue(a);
    DecimalValue(b);
  }

  lemma DigitsThenUnderscore(x: string, y: string, rest: string)
    requires AllDigits(x) && AllDigits(y) && x + "_" <= rest && y + "_" <= rest
    ensures x == y
  {
    assert (x + "_")[|x|] == '_' && (y + "_")[|y|] == '_';
    assert rest[|x|] == '_' && rest[|y|] == '_';
    assert forall i :: 0 <= i < |x| ==> rest[i] == (x + "_")[i] == x[i] && IsDigit(rest[i]);
    assert forall i :: 0 <= i < |y| ==> rest[i] == (y + "_")[i] == y[i] && IsDigit(rest[i]);
    assert |x| == |y|;
  }

  lemma AfterFirstCharacter(c: char, rest: string, key: string)
    requires [c] + rest <= key
    ensures |key| > 0 && rest <= key[1..]
  {
    assert ([c] + rest)[1..] == rest;
    assert forall i :: 0 <= i < |rest| ==> rest[i] == ([c] + rest)[i + 1] == key[i + 1];
  }

  lemma ListedTail(oid: nat, key: string)
    requires Under(oid, key)
    ensures |key| > 1 && Decimal(oid) + "_" <= key[1..]
  {
    var tail := Decimal(oid) + "_";
    assert "s" + Decimal(oid) + "_" == ['s'] + tail && "e" + Decimal(oid) + "_" == ['e'] + tail;
    if ['s'] + tail <= key {
      AfterFirstCharacter('s', tail, key);
    } else {
      AfterFirstCharacter('e', tail, key);
    }
  }

  /** No key is listed for two objects: `s12_` does not list `s123_...`. */
  lemma PrefixesDisjoint(a: nat, b: nat, key: string)
    requires Under(a, key) && Under(b, key)
    ensures a == b
  {
    ListedTail(a, key);
    ListedTail(b, key);
    DecimalValue(a);
    DecimalValue(b);
    DigitsThenUnderscore(Decimal(a), Decimal(b), key[1..]);
    DecimalInjective(a, b);
  }

  lemma KeyUnderPrefix(p: Piece)
    ensures Prefixes(p.oid)[if p.secondary then 1 else 0] <= Key(p)
  {
    var tail := if p.version == 0 then "" else "_v" + Signed(p.version);
    if p.secondary {
      var head, body := "e" + Decimal(p.oid) + "_", "s" + Decimal(p.segment) + "_" + ("p" + Decimal(p.redundancy));
      assert Key(p) == head + (body + tail);
    } else {
      var head, body := "s" + Decimal(p.oid) + "_", "s" + Decimal(p.segment);
      assert Key(p) == head + (body + tail);
    }
  }

  /** A well-formed piece lies under the prefix of its own object, primary or secondary. */
  lemma PieceUnderPrefix(key: string)
    requires Parse(key).Some?
    ensures Prefixes(Parse(key).value.oid)[if Parse(key).value.secondary then 1 else 0] <= key
    ensures Under(Parse(key).value.oid, key)
  {
    ParsedKey(key);
    KeyUnderPrefix(Parse(key).value);
  }

  /** Among the keys listed for an object, the deletable ones are exactly the well-formed ones. */
  lemma ListedPieces(oid: nat, key: string)
    ensures PieceOf(oid, key) ==> Under(oid, key)
    ensures Under(oid, key) ==> (PieceOf(oid, key) <==> Parse(key).Some?)
  {
    if Parse(key).Some? {
      PieceUnderPrefix(key);
      if Under(oid, key) {
        PrefixesDisjoint(oid, Parse(key).value.oid, key);
      }
    }
  }

  // ---------------------------------------------------------------- KeepOnly

  /** The elements satisfying `good`, in order. */
  function Filtered(keys: seq<string>, good: string -> bool): seq<string> {
    if keys == [] then []
    else
      var k := keys[|keys| - 1];
      Filtered(keys[..|keys| - 1], good) + if good(k) then [k] else []
  }

  lemma {:induction false} FilteredMembers(keys: seq<string>, good: string -> bool)
    ensures forall k :: k in Filtered(keys, good) <==> k in keys && good(k)
  {
    if keys != [] {
      FilteredMembers(keys[..|keys| - 1], good);
    }
  }

  lemma {:induction false} FilteredAll(keys: seq<string>, good: string -> bool)
    requires forall k :: k in keys ==> good(k)
    ensures Filtered(keys, good) == keys
  {
    if keys != [] {
      var init, k := keys[..|keys| - 1], keys[|keys| - 1];
      FilteredAll(init, good);
      assert good(k);
      assert keys == init + [k];
    }
  }

  function IsPieceOf(oid: nat): string -> bool {
    k => PieceOf(oid, k)
  }

  function IsForeignTo(oid: nat): string -> bool {
    k => !PieceOf(oid, k)
  }

  /** Splits a listing into the pieces of the object and the keys that must not be deleted. */
  method KeepOnly(keys: seq<string>, want: nat) returns (kept: seq<string>, rejected: seq<string>)
    ensures kept == Filtered(keys, IsPieceOf(want)) && rejected == Filtered(keys, IsForeignTo(want))
    ensures forall k :: k in kept <==> k in keys && PieceOf(want, k)
    ensures forall k :: k in rejected <==> k in keys && !PieceOf(want, k)
    ensures rejected == [] ==> kept == keys
  {
    kept, rejected := [], [];
    for i := 0 to |keys|
      invariant kept == Filtered(keys[..i], IsPieceOf(want)) && rejected == Filtered(keys[..i], IsForeignTo(want))
    {
      var k := keys[i];
      assert keys[..i + 1][..i] == keys[..i];
      if PieceOf(want, k) {
        kept := kept + [k];
      } else {
        rejected := rejected + [k];
      }
    }
    assert keys[..|keys|] == keys;
    FilteredMembers(keys, IsPieceOf(want));
    FilteredMembers(keys, IsForeignTo(want));
    if rejected == [] {
      FilteredAll(keys, IsPieceOf(want));
    }
  }
}
