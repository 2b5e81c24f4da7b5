/** Splitting measured bandwidth into block-size buckets
    (pkg/service/disk/server.go: ConvertData, SolveEquations). */
module BlockSplit {

  /** The block sizes of the buckets. */
  const SIZES := [512.0, 1024.0, 4096.0, 8192.0, 16384.0, 32768.0]

  /** x operations of size a and y of size b that make up c1 bytes and c2 operations; returned as bytes. */
  function SolveEquations(a1: real, b1: real, c1: real, a2: real, b2: real, c2: real): (real, real) {
    var det := a1 * b2 - a2 * b1;
    if det == 0.0 then (0.0, 0.0)
    else ((c1 * b2 - c2 * b1) / det * a1, (a1 * c2 - a2 * c1) / det * b1)
  }

  function Bytes(s: seq<real>): real
    requires |s| == 6
  {
    s[0] + s[1] + s[2] + s[3] + s[4] + s[5]
  }

  /** The operations that the buckets stand for. */
  function Ops(s: seq<real>): real
    requires |s| == 6
  {
    s[0] / 512.0 + s[1] / 1024.0 + s[2] / 4096.0 + s[3] / 8192.0 + s[4] / 16384.0 + s[5] / 32768.0
  }

  predicate NonNegative(s: seq<real>) {
    forall i | 0 <= i < |s| :: s[i] >= 0.0
  }

  /** A mixture of two sizes: for an average size strictly between them both parts are positive, and
      together they make up the bytes and the operations. */
  lemma Mixture(a: real, b: real, bps: real, iops: real)
    requires 0.0 < a < b && iops > 0.0 && a * iops < bps < b * iops
    ensures var (p, q) := SolveEquations(a, b, bps, 1.0, 1.0, iops);
            p > 0.0 && q > 0.0 && p + q == bps && p / a + q / b == iops
  {
    var det := a - b;
    var x, y := (bps - iops * b) / det, (a * iops - bps) / det;
    Quotient(bps - iops * b, det);
    Quotient(a * iops - bps, det);
    assert x * det + y * det == (a - b) * iops;
    Cancel(x + y, iops, det);
    Cancel(x * a + y * b, bps, det);
    Positive(x, a);
    Positive(y, b);
  }

  lemma Quotient(n: real, d: real)
    requires n < 0.0 && d < 0.0
    ensures n / d > 0.0 && n / d * d == n
  {
  }

  lemma Cancel(x: real, y: real, d: real)
    requires d < 0.0 && x * d == y * d
    ensures x == y
  {
  }

  lemma Positive(x: real, y: real)
    requires x > 0.0 && y > 0.0
    ensures x * y > 0.0 && x * y / y == x
  {
  }

  // ---------------------------------------------------------------- the buckets

  /** Only the bucket of the average size, or the two around it, are used. */
  predicate Near(s: seq<real>, bs: real)
    requires |s| == 6
  {
    forall i | 0 <= i < 6 && s[i] != 0.0 :: (i > 0 ==> SIZES[i - 1] < bs) && (i < 5 ==> bs < SIZES[i + 1])
  }

  /** What a split must satisfy. */
  predicate Splits(s: seq<real>, bps: real, iops: real) {
    && |s| == 6 && iops > 0.0
    && NonNegative(s) && Bytes(s) == bps && Near(s, bps / iops)
    && (Ops(s) == iops <==> 512.0 <= bps / iops <= 32768.0)
  }

  const NONE := [0.0, 0.0, 0.0, 0.0, 0.0, 0.0]

  lemma Average(bps: real, iops: real, a: real)
    requires iops > 0.0
    ensures (a < bps / iops <==> a * iops < bps) && (a == bps / iops <==> a * iops == bps)
  {
    var bs := bps / iops;
    assert bs * iops == bps;
    if a < bs {
      assert (bs - a) * iops > 0.0;
    } else if a > bs {
      assert (a - bs) * iops > 0.0;
    }
  }

  /** Everything in the first or the last bucket. */
  lemma EndSplits(bps: real, iops: real)
    requires bps >= 0.0 && iops > 0.0
    ensures bps / iops <= 512.0 ==> Splits(NONE[0 := bps], bps, iops)
    ensures bps / iops >= 32768.0 ==> Splits(NONE[5 := bps], bps, iops)
  {
    Average(bps, iops, 512.0);
    Average(bps, iops, 32768.0);
  }

  /** Everything in the bucket of exactly the average size. */
  lemma ExactSplits(bps: real, iops: real, k: nat)
    requires bps >= 0.0 && iops > 0.0 && 0 < k < 5 && bps / iops == SIZES[k]
    ensures Splits(NONE[k := bps], bps, iops)
  {
    Average(bps, iops, SIZES[k]);
    assert bps / SIZES[k] == iops;
  }

  /** Two neighbouring buckets. */
  lemma PairSplits(bps: real, iops: real, k: nat)
    requires bps >= 0.0 && iops > 0.0 && k < 5 && SIZES[k] < bps / iops < SIZES[k + 1]
    ensures var (p, q) := SolveEquations(SIZES[k], SIZES[k + 1], bps, 1.0, 1.0, iops);
            Splits(NONE[k := p][k + 1 := q], bps, iops)
  {
    Average(bps, iops, SIZES[k]);
    Average(bps, iops, SIZES[k + 1]);
    Mixture(SIZES[k], SIZES[k + 1], bps, iops);
  }

  /** There is only one way to split. */
  lemma SplitDetermined(s: seq<real>, t: seq<real>, bps: real, iops: real)
    requires Splits(s, bps, iops) && Splits(t, bps, iops)
    ensures s == t
  {
    var bs := bps / iops;
    if bs <= 512.0 || bs >= 32768.0 {
      var k := if bs <= 512.0 then 0 else 5;
      assert forall i | 0 <= i < 6 && i != k :: s[i] == 0.0 && t[i] == 0.0;
    } else if bs < 4096.0 {
      assert forall i | 3 <= i < 6 :: s[i] == 0.0 && t[i] == 0.0;
      assert s[0] == 0.0 == t[0] || (s[2] == 0.0 == t[2]);
    } else {
      assert s[0] == 0.0 && t[0] == 0.0;
      SplitLarge(s, t, bs);
    }
  }

  lemma SplitLarge(s: seq<real>, t: seq<real>, bs: real)
    requires |s| == |t| == 6 && Near(s, bs) && Near(t, bs) && 4096.0 <= bs < 32768.0
    requires Bytes(s) == Bytes(t) && Ops(s) == Ops(t)
    ensures s == t
  {
    if bs < 8192.0 {
      assert forall i | 0 <= i < 6 && i != 2 && i != 3 :: s[i] == 0.0 && t[i] == 0.0;
    } else if bs < 16384.0 {
      assert forall i | 0 <= i < 6 && i != 3 && i != 4 :: s[i] == 0.0 && t[i] == 0.0;
    } else {
      assert forall i | 0 <= i < 6 && i != 4 && i != 5 :: s[i] == 0.0 && t[i] == 0.0;
    }
  }

  /** Fills a slice of zeros.  Without operations the average size is not a number or infinite, and
      everything goes to the last bucket. */
  method ConvertData(bps: real, iops: real, data: array<real>)
    requires data.Length == 6
    modifies data
    ensures bps >= 0.0 && iops > 0.0 && old(data[..]) == NONE ==> Splits(data[..], bps, iops)
    ensures iops == 0.0 ==> data[..] == old(data[..])[5 := bps]
  {
    if iops == 0.0 {
      data[5] := bps;
      return;
    }
    var bs := bps / iops;
    if bps >= 0.0 && iops > 0.0 {
      EndSplits(bps, iops);
    }
    if bs <= 512.0 {
      data[0] := bps;
      assert data[..] == old(data[..])[0 := bps];
    } else if bs < 1024.0 {
      Fill(0, bps, iops, data);
    } else if bs == 1024.0 {
      Put(1, bps, iops, data);
    } else if bs < 4096.0 {
      Fill(1, bps, iops, data);
    } else if bs == 4096.0 {
      Put(2, bps, iops, data);
    } else if bs < 8192.0 {
      Fill(2, bps, iops, data);
    } else if bs == 8192.0 {
      Put(3, bps, iops, data);
    } else if bs < 16384.0 {
      Fill(3, bps, iops, data);
    } else if bs == 16384.0 {
      Put(4, bps, iops, data);
    } else if bs < 32768.0 {
      Fill(4, bps, iops, data);
    } else {
      data[5] := bps;
      assert data[..] == old(data[..])[5 := bps];
    }
  }

  method Fill(k: nat, bps: real, iops: real, data: array<real>)
    requires data.Length == 6 && k < 5 && iops != 0.0 && SIZES[k] < bps / iops < SIZES[k + 1]
    modifies data
    ensures bps >= 0.0 && iops > 0.0 && old(data[..]) == NONE ==> Splits(data[..], bps, iops)
  {
    var (p, q) := SolveEquations(SIZES[k], SIZES[k + 1], bps, 1.0, 1.0, iops);
    data[k], data[k + 1] := p, q;
    assert data[..] == old(data[..])[k := p][k + 1 := q];
    if bps >= 0.0 && iops > 0.0 {
      PairSplits(bps, iops, k);
    }
  }

  method Put(k: nat, bps: real, iops: real, data: array<real>)
    requires data.Length == 6 && 0 < k < 5 && iops != 0.0 && bps / iops == SIZES[k]
    modifies data
    ensures bps >= 0.0 && iops > 0.0 && old(data[..]) == NONE ==> Splits(data[..], bps, iops)
  {
    data[k] := bps;
    assert data[..] == old(data[..])[k := bps];
    if bps >= 0.0 && iops > 0.0 {
      ExactSplits(bps, iops, k);
    }
  }
}
