/**
 The secondary size formula (internal/purge/sizecheck.go): one erasure-coded shard per
 segment, in 64-bit arithmetic that wraps.
 */
module ShardSize {
  import opened Wrappers

  function CeilDiv(n: nat, k: nat): nat
    requires 0 < k
  {
    (n + k - 1) / k
  }

  /** Shard bytes of whole segments plus the remainder, in exact arithmetic. */
  function ClosedForm(payload: nat, segment: nat, k: nat): int
    requires 0 < segment && 0 < k
  {
    (payload / segment) * CeilDiv(segment, k) + CeilDiv(payload % segment, k)
  }

  /** The shard size of one segment as the 64-bit expression `(seg + k - 1) / k` computes it. */
  function Shard(seg: nat, k: nat): nat
    requires 0 < k
  {
    ((seg + k - 1) % TWO_64) / k
  }

  /** The rounding-up addition does not leave 64 bits for the largest segment that occurs. */
  predicate NoWrap(payload: nat, segment: nat, k: nat) {
    (if payload < segment then payload else segment) + k <= TWO_64
  }

  lemma MulMono(c: nat, a: nat, b: nat)
    requires a <= b
    ensures c * a <= c * b && a * c <= b * c
  {
  }

  lemma Distribute(c: int, a: int, b: int)
    ensures c * (a + b) == c * a + c * b && (a + b) * c == a * c + b * c
  {
  }

  lemma DivUnique(n: nat, d: nat, q: nat, r: nat)
    requires 0 < d && r < d && n == d * q + r
    ensures n / d == q && n % d == r
  {
    var q' := n / d;
    assert n == d * q' + n % d;
    if q < q' {
      MulMono(d, q + 1, q');
      Distribute(d, q, 1);
    } else if q' < q {
      MulMono(d, q' + 1, q);
      Distribute(d, q', 1);
    }
  }

  lemma DivPeel(n: nat, d: nat)
    requires 0 < d
    ensures (n + d) / d == n / d + 1 && (n + d) % d == n % d
  {
    assert n == d * (n / d) + n % d;
    Distribute(d, n / d, 1);
    DivUnique(n + d, d, n / d + 1, n % d);
  }

  lemma DivBounds(n: nat, k: nat)
    requires 0 < k
    ensures n <= k * CeilDiv(n, k) <= n + k - 1
    ensures CeilDiv(n, k) <= n && (0 < n ==> 0 < CeilDiv(n, k))
  {
    var q := CeilDiv(n, k);
    assert n + k - 1 == k * q + (n + k - 1) % k;
    if n < q {
      MulMono(k, n + 1, q);
      Distribute(k, n, 1);
      MulMono(n, 1, k);
    }
  }

  lemma ShardExact(seg: nat, k: nat)
    requires 0 < k < TWO_32 && seg < TWO_64
    ensures seg + k <= TWO_64 ==> Shard(seg, k) == CeilDiv(seg, k)
    ensures TWO_64 < seg + k ==> Shard(seg, k) == 0
  {
    if TWO_64 < seg + k {
      assert (seg + k - 1) % TWO_64 == seg + k - 1 - TWO_64;
    }
  }

  /** Peeling one whole segment off the payload. */
  lemma ClosedFormStep(rest: nat, segment: nat, k: nat)
    requires 0 < segment && 0 < k
    ensures ClosedForm(rest + segment, segment, k) == CeilDiv(segment, k) + ClosedForm(rest, segment, k)
  {
    DivPeel(rest, segment);
    Distribute(CeilDiv(segment, k), rest / segment, 1);
  }

  lemma ClosedFormLast(payload: nat, segment: nat, k: nat)
    requires payload < segment && 0 < k
    ensures ClosedForm(payload, segment, k) == CeilDiv(payload, k)
  {
    DivUnique(payload, segment, 0, payload);
  }

  lemma SegmentCount(rest: nat, segment: nat)
    requires 0 < segment
    ensures CeilDiv(rest + segment, segment) == CeilDiv(rest, segment) + 1
    ensures 0 < rest <= segment ==> CeilDiv(rest, segment) == 1
  {
    DivPeel(rest + segment - 1, segment);
    if 0 < rest <= segment {
      DivUnique(rest + segment - 1, segment, 1, rest - 1);
    }
  }

  /** The shards cover the payload, exceed it by less than one chunk per segment, and never hold more. */
  ghost predicate Covers(payload: int, k: int, total: int, segments: int) {
    payload <= k * total <= payload + (k - 1) * segments && 0 <= total <= payload && (0 < payload ==> 0 < total)
  }

  lemma CoversAdd(k: nat, p: nat, a: nat, m: nat, q: nat, b: nat, n: nat)
    requires Covers(p, k, a, m) && Covers(q, k, b, n)
    ensures Covers(q + p, k, a + b, n + m)
  {
    Distribute(k, a, b);
    Distribute(k - 1, n, m);
  }

  lemma OneSegment(payload: nat, segment: nat, k: nat)
    requires payload <= segment && 0 < segment && 0 < k
    ensures Covers(payload, k, CeilDiv(payload, k), CeilDiv(payload, segment))
  {
    DivBounds(payload, k);
    SegmentCount(payload, segment);
  }

  lemma {:induction false} ClosedFormBounds(payload: nat, segment: nat, k: nat)
    requires 0 < segment && 0 < k
    ensures Covers(payload, k, ClosedForm(payload, segment, k), CeilDiv(payload, segment))
    decreases payload
  {
    if payload < segment {
      ClosedFormLast(payload, segment, k);
      OneSegment(payload, segment, k);
    } else {
      var rest := payload - segment;
      ClosedFormBounds(rest, segment, k);
      OneSegment(segment, segment, k);
      assert CeilDiv(payload, segment) == CeilDiv(rest, segment) + CeilDiv(segment, segment) by {
        SegmentCount(rest, segment);
        SegmentCount(segment, segment);
      }
      ClosedFormStep(rest, segment, k);
      CoversAdd(k, segment, CeilDiv(segment, k), CeilDiv(segment, segment),
                rest, ClosedForm(rest, segment, k), CeilDiv(rest, segment));
    }
  }

  /** 64-bit addition. */
  function Wrapped(sum: nat): (r: nat)
    ensures sum < TWO_64 ==> r == sum
  {
    sum % TWO_64
  }

  function Least(a: nat, b: nat): nat {
    if a < b then a else b
  }

  /** The shard bytes segment by segment, in exact arithmetic. */
  function Shards(payload: nat, segment: nat, k: nat): nat
    requires 0 < segment && 0 < k
    decreases payload
  {
    if payload == 0 then 0
    else
      var seg := Least(payload, segment);
      CeilDiv(seg, k) + Shards(payload - seg, segment, k)
  }

  /** The segment-by-segment sum has a closed form. */
  lemma {:induction false} ShardsClosedForm(payload: nat, segment: nat, k: nat)
    requires 0 < segment && 0 < k
    ensures Shards(payload, segment, k) == ClosedForm(payload, segment, k)
    decreases payload
  {
    if payload < segment {
      ClosedFormLast(payload, segment, k);
      DivBounds(0, k);
    } else {
      ShardsClosedForm(payload - segment, segment, k);
      ClosedFormStep(payload - segment, segment, k);
    }
  }

  /** One round of the loop: exact unless the rounding-up addition wraps. */
  lemma RoundStep(left: nat, segment: nat, k: nat)
    requires 0 < left < TWO_64 && 0 < segment < TWO_64 && 0 < k < TWO_32
    ensures var seg := Least(left, segment);
            var gap := Shards(left, segment, k) - Shards(left - seg, segment, k);
            0 <= Shard(seg, k) <= gap && (Shard(seg, k) == gap <==> seg + k <= TWO_64)
  {
    ShardExact(Least(left, segment), k);
    DivBounds(Least(left, segment), k);
  }

  lemma ShardsBound(payload: nat, segment: nat, k: nat)
    requires 0 < segment && 0 < k
    ensures Shards(payload, segment, k) <= payload
  {
    ShardsClosedForm(payload, segment, k);
    ClosedFormBounds(payload, segment, k);
  }

  /**
   The loop of the program. It returns the exact sum precisely when the addition does not
   wrap; when it does wrap, the first segment already contributes nothing.
   */
  method ExpectedSecondaryBytes(payload: nat, segmentSize: nat, dataChunks: nat) returns (total: nat)
    requires payload < TWO_64 && segmentSize < TWO_64 && dataChunks < TWO_32
    ensures segmentSize == 0 || dataChunks == 0 ==> total == 0
    ensures 0 < segmentSize && 0 < dataChunks ==>
              total <= Shards(payload, segmentSize, dataChunks)
              && (total == Shards(payload, segmentSize, dataChunks) <==>
                  payload == 0 || NoWrap(payload, segmentSize, dataChunks))
  {
    total := 0;
    if segmentSize == 0 || dataChunks == 0 {
      return;
    }
    var k, left: nat := dataChunks, payload;
    ShardsBound(payload, segmentSize, k);
    ghost var whole, exact := Shards(payload, segmentSize, k), NoWrap(payload, segmentSize, k);
    while 0 < left
      invariant left <= payload
      invariant total + Shards(left, segmentSize, k) <= whole
      invariant exact ==> total + Shards(left, segmentSize, k) == whole
      invariant !exact && left < payload ==> total + Shards(left, segmentSize, k) < whole
    {
      var seg := segmentSize;
      if left < seg {
        seg := left;
      }
      RoundStep(left, segmentSize, k);
      var sum := total + Shard(seg, k);
      assert sum + Shards(left - seg, segmentSize, k) <= whole;
      total := Wrapped(sum);
      left := left - seg;
    }
  }
}
