/**
 Capacity selection (internal/progress/subtask.go, SelectCapacity): the contiguous prefix
 of a sorted candidate list that makes up one batch, with 64-bit overflow made explicit.
 */
module Capacity {
  import opened Wrappers

  /** One object of the scan list: identity plus the snapshot recorded for it. */
  datatype ScanRow = ScanRow(oid: nat, payload: nat, status: string, version: int)

  predicate Fits(rows: seq<ScanRow>) {
    forall i :: 0 <= i < |rows| ==> rows[i].payload < TWO_64
  }

  /** Exact sum of the payload sizes. */
  function Payload(rows: seq<ScanRow>): nat {
    if rows == [] then 0 else Payload(rows[..|rows| - 1]) + rows[|rows| - 1].payload
  }

  lemma PayloadSnoc(rows: seq<ScanRow>, n: nat)
    requires n < |rows|
    ensures Payload(rows[..n + 1]) == Payload(rows[..n]) + rows[n].payload
  {
    assert rows[..n + 1][..n] == rows[..n];
  }

  /**
   How many rows the selection takes once it has taken `n` of them; `None` when the running
   total would leave 64 bits.
   */
  function TakeFrom(rows: seq<ScanRow>, target: nat, max: nat, n: nat): Option<nat>
    requires n <= |rows|
    decreases |rows| - n
  {
    var total := Payload(rows[..n]);
    if n == |rows| || max <= n || target <= total then Some(n)
    else if target < rows[n].payload && 0 < n then Some(n)
    else if TWO_64 <= total + rows[n].payload then None
    else TakeFrom(rows, target, max, n + 1)
  }

  datatype Refusal = BadArguments | Overflow

  /** The selection as a value. */
  function Select(rows: seq<ScanRow>, target: nat, max: nat): Result<seq<ScanRow>, Refusal> {
    if target == 0 || max == 0 then Err(BadArguments)
    else match TakeFrom(rows, target, max, 0)
      case None => Err(Overflow)
      case Some(k) => TakeBound(rows, target, max, 0); Ok(rows[..k])
  }

  /** What holds of every prefix the loop grows through. */
  ghost predicate Growing(rows: seq<ScanRow>, target: nat, max: nat, n: nat)
    requires n <= |rows|
  {
    && n <= max
    && Payload(rows[..n]) < TWO_64
    && (1 <= n ==> Payload(rows[..n - 1]) < target)
    && (2 <= n ==> forall i :: 0 <= i < n ==> rows[i].payload <= target)
  }

  /** Why the selection could not take row `n` as well. */
  ghost predicate Full(rows: seq<ScanRow>, target: nat, max: nat, n: nat)
    requires n <= |rows|
  {
    n == |rows| || n == max || target <= Payload(rows[..n]) || (0 < n && target < rows[n].payload)
  }

  lemma {:induction false} TakeBound(rows: seq<ScanRow>, target: nat, max: nat, n: nat)
    requires n <= |rows|
    ensures var r := TakeFrom(rows, target, max, n); r.Some? ==> n <= r.value <= |rows|
    decreases |rows| - n
  {
    if n < |rows| {
      TakeBound(rows, target, max, n + 1);
    }
  }

  lemma GrowsByOne(rows: seq<ScanRow>, target: nat, max: nat, n: nat)
    requires n < |rows| && n < max && Growing(rows, target, max, n)
    requires Payload(rows[..n]) < target && (0 < n ==> rows[n].payload <= target)
    requires Payload(rows[..n]) + rows[n].payload < TWO_64
    ensures Growing(rows, target, max, n + 1)
  {
    PayloadSnoc(rows, n);
    if n == 1 {
      PayloadSnoc(rows, 0);
      assert rows[..1] == [rows[0]];
    }
  }

  lemma {:induction false} TakeFacts(rows: seq<ScanRow>, target: nat, max: nat, n: nat)
    requires n <= |rows| && Growing(rows, target, max, n)
    ensures var r := TakeFrom(rows, target, max, n);
            r.Some? ==> n <= r.value <= |rows|
                        && Growing(rows, target, max, r.value) && Full(rows, target, max, r.value)
    decreases |rows| - n
  {
    var total := Payload(rows[..n]);
    if n < |rows| && n < max && total < target && (0 < n ==> rows[n].payload <= target)
       && total + rows[n].payload < TWO_64 {
      GrowsByOne(rows, target, max, n);
      TakeFacts(rows, target, max, n + 1);
    }
  }

  /**
   A batch is a nonempty prefix of the candidates within the object limit; it is a single
   object or stays below twice the target with no oversize member; and it stops only for a reason.
   */
  lemma SelectFacts(rows: seq<ScanRow>, target: nat, max: nat)
    requires Fits(rows)
    ensures var r := Select(rows, target, max);
            r.Ok? ==>
              && r.value <= rows && |r.value| <= max && Payload(r.value) < TWO_64
              && (r.value == [] <==> rows == [])
              && (2 <= |r.value| ==> Payload(r.value) < 2 * target
                                     && forall i :: 0 <= i < |r.value| ==> rows[i].payload <= target)
              && Full(rows, target, max, |r.value|)
  {
    var r := Select(rows, target, max);
    if r.Ok? {
      TakeFacts(rows, target, max, 0);
      var k := |r.value|;
      assert r.value == rows[..k];
      if 2 <= k {
        PayloadSnoc(rows, k - 1);
      }
    }
  }

  lemma {:induction false} NoOverflow(rows: seq<ScanRow>, target: nat, max: nat, n: nat)
    requires Fits(rows) && n <= |rows| && Growing(rows, target, max, n) && (max == 1 || target <= TWO_63)
    ensures TakeFrom(rows, target, max, n).Some?
    decreases |rows| - n
  {
    var total := Payload(rows[..n]);
    if n < |rows| && n < max && total < target && (0 < n ==> rows[n].payload <= target) {
      GrowsByOne(rows, target, max, n);
      NoOverflow(rows, target, max, n + 1);
    }
  }

  /**
   Whatever the candidates, the sum stays in 64 bits exactly when the target is at most 2^63 or
   a batch is a single object.
   */
  lemma OverflowThreshold(target: nat, max: nat)
    requires 0 < target < TWO_64 && 1 <= max
    ensures (forall rows :: Fits(rows) ==> Select(rows, target, max).Ok?) <==> max == 1 || target <= TWO_63
  {
    if max == 1 || target <= TWO_63 {
      forall rows: seq<ScanRow> | Fits(rows) ensures Select(rows, target, max).Ok? {
        NoOverflow(rows, target, max, 0);
      }
    } else {
      var a, b := ScanRow(1, target - 1, "", 0), ScanRow(2, target, "", 0);
      var rows := [a, b];
      assert rows[..0] == [] && rows[..1] == [a];
      assert Payload([a]) == target - 1 by {
        assert [a][..0] == [];
      }
      assert TakeFrom(rows, target, max, 1) == None;
      assert Fits(rows) && !Select(rows, target, max).Ok?;
    }
  }

  /** The loop of the program. */
  method SelectCapacity(rows: seq<ScanRow>, target: nat, max: int)
    returns (r: Result<(seq<ScanRow>, nat), Refusal>)
    requires Fits(rows)
    ensures max <= 0 ==> r == Err(BadArguments)
    ensures 0 < max ==> match Select(rows, target, max)
                        case Ok(selected) => r == Ok((selected, Payload(selected)))
                        case Err(e) => r == Err(e)
  {
    if target == 0 || max <= 0 {
      return Err(BadArguments);
    }
    var out, total := [], 0;
    for i := 0 to |rows|
      invariant out == rows[..i] && total == Payload(out)
      invariant TakeFrom(rows, target, max, 0) == TakeFrom(rows, target, max, i)
    {
      if max <= |out| || target <= total {
        return Ok((out, total));
      }
      if target < rows[i].payload && 0 < |out| {
        return Ok((out, total));
      }
      if TWO_64 - 1 - total < rows[i].payload {
        return Err(Overflow);
      }
      PayloadSnoc(rows, i);
      assert rows[..i + 1] == out + [rows[i]];
      out := out + [rows[i]];
      total := total + rows[i].payload;
    }
    return Ok((out, total));
  }
}
