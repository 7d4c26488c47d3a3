/** What the script relies on from a DataLoader: how many batches one pass yields and how
    large each is, with and without `drop_last`. Shuffling and workers are left out; they
    change which samples land in a batch, not the sizes. */
module Batching {

  datatype Loader = Loader(datasetSize: nat, batchSize: nat, dropLast: bool) {
    predicate Valid() { batchSize > 0 }
  }

  /** `len(loader)`. */
  function NumBatches(l: Loader): nat
    requires l.Valid()
  {
    if l.dropLast then l.datasetSize / l.batchSize
    else (l.datasetSize + l.batchSize - 1) / l.batchSize
  }

  function Sum(s: seq<nat>): nat {
    if s == [] then 0 else s[0] + Sum(s[1..])
  }

  /** Sizes of the batches cut, in order, from `rest` remaining samples. */
  function SizesFrom(rest: nat, size: nat, dropLast: bool): (r: seq<nat>)
    requires size > 0
    ensures forall k :: 0 <= k < |r| ==> 0 < r[k] <= size
    ensures forall k :: 0 <= k < |r| - 1 ==> r[k] == size
    ensures dropLast ==> forall k :: 0 <= k < |r| ==> r[k] == size
    decreases rest
  {
    if rest == 0 then []
    else if rest < size then (if dropLast then [] else [rest])
    else [size] + SizesFrom(rest - size, size, dropLast)
  }

  lemma DivStep(a: nat, b: nat)
    requires 0 < b <= a
    ensures (a - b) / b == a / b - 1
  {
    var q, r := (a - b) / b, (a - b) % b;
    assert a == (q + 1) * b + r;
    DivUnique(a, b, q + 1, r);
  }

  lemma DivUnique(a: nat, b: nat, q: nat, r: nat)
    requires 0 <= r < b && a == q * b + r
    ensures a / b == q
  {
    var q', r' := a / b, a % b;
    if q' < q {
      Distribute(q - q', q', b);
      MulAtLeast(q - q', b);
    } else if q' > q {
      Distribute(q' - q, q, b);
      MulAtLeast(q' - q, b);
    }
  }

  lemma Distribute(d: nat, q: nat, b: nat)
    ensures (d + q) * b == d * b + q * b
  {
  }

  lemma {:induction false} MulAtLeast(d: nat, b: nat)
    requires d >= 1
    ensures d * b >= b
  {
    if d > 1 {
      MulAtLeast(d - 1, b);
      Distribute(d - 1, 1, b);
    }
  }

  lemma {:induction false} SizesFromCount(rest: nat, size: nat, dropLast: bool)
    requires size > 0
    ensures |SizesFrom(rest, size, dropLast)| ==
              if dropLast then rest / size else (rest + size - 1) / size
    decreases rest
  {
    var n := |SizesFrom(rest, size, dropLast)|;
    if rest == 0 {
      DivUnique(size - 1, size, 0, size - 1);
    } else if rest < size {
      if dropLast {
        DivUnique(rest, size, 0, rest);
      } else {
        DivUnique(rest + size - 1, size, 1, rest - 1);
      }
    } else {
      SizesFromCount(rest - size, size, dropLast);
      assert n == |SizesFrom(rest - size, size, dropLast)| + 1;
      if dropLast {
        DivStep(rest, size);
      } else {
        DivStep(rest + size - 1, size);
        assert rest + size - 1 - size == rest - size + size - 1;
      }
    }
  }

  lemma {:induction false} SizesFromTotal(rest: nat, size: nat, dropLast: bool)
    requires size > 0
    ensures !dropLast ==> Sum(SizesFrom(rest, size, dropLast)) == rest
    ensures Sum(SizesFrom(rest, size, dropLast)) <= rest
    decreases rest
  {
    if rest != 0 && rest >= size {
      var tail := SizesFrom(rest - size, size, dropLast);
      assert ([size] + tail)[1..] == tail;
      SizesFromTotal(rest - size, size, dropLast);
    }
  }

  /** The batch sizes of one pass over the loader, one per batch. */
  function BatchSizes(l: Loader): (r: seq<nat>)
    requires l.Valid()
    ensures |r| == NumBatches(l)
    ensures forall k :: 0 <= k < |r| ==> 0 < r[k] <= l.batchSize
  {
    SizesFromCount(l.datasetSize, l.batchSize, l.dropLast);
    SizesFrom(l.datasetSize, l.batchSize, l.dropLast)
  }

  /** What one pass yields: with `drop_last` every batch is full and the remainder is lost;
      without it every sample is delivered, only the last batch may be short, and the pass
      never exceeds `len(loader) * batch_size` samples. */
  lemma BatchSizesProperties(l: Loader)
    requires l.Valid()
    ensures l.dropLast ==> forall k :: 0 <= k < |BatchSizes(l)| ==> BatchSizes(l)[k] == l.batchSize
    ensures !l.dropLast ==> Sum(BatchSizes(l)) == l.datasetSize
    ensures forall k :: 0 <= k < |BatchSizes(l)| - 1 ==> BatchSizes(l)[k] == l.batchSize
    ensures Sum(BatchSizes(l)) <= l.datasetSize
    ensures Sum(BatchSizes(l)) <= NumBatches(l) * l.batchSize
  {
    SizesFromTotal(l.datasetSize, l.batchSize, l.dropLast);
    SumBound(BatchSizes(l), l.batchSize);
  }

  lemma {:induction false} SumBound(s: seq<nat>, bound: nat)
    requires forall k :: 0 <= k < |s| ==> s[k] <= bound
    ensures Sum(s) <= |s| * bound
  {
    if s != [] {
      SumBound(s[1..], bound);
    }
  }

  /** `next(iter(loader))` takes the first batch of a fresh pass. Without `drop_last` it
      exists exactly when the dataset is non-empty and holds min(size, batch_size) samples,
      so it is shorter than `batch_size` only when the whole dataset is. */
  lemma FirstBatch(l: Loader)
    requires l.Valid() && !l.dropLast
    ensures NumBatches(l) > 0 <==> l.datasetSize > 0
    ensures NumBatches(l) > 0 ==>
              BatchSizes(l)[0] == if l.datasetSize < l.batchSize then l.datasetSize else l.batchSize
  {
    var n, b := l.datasetSize, l.batchSize;
    if n == 0 {
      DivUnique(b - 1, b, 0, b - 1);
    } else if n >= b {
      DivStep(n + b - 1, b);
    }
  }
}
