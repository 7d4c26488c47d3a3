/** Accuracy counting: a prediction is the index of the largest score, a batch contributes
    the number of samples whose prediction equals the label, and the counts are summed over
    the batches of a loader and divided by a denominator. */
module Accuracy {
  import opened Runtime
  import opened Batching

  /** One row of network output together with its ground-truth class. */
  datatype Sample = Sample(scores: seq<int>, truth: int)

  type Batch = seq<Sample>

  predicate WellFormed(b: Batch) {
    forall k :: 0 <= k < |b| ==> |b[k].scores| > 0
  }

  predicate AllWellFormed(bs: seq<Batch>) {
    forall k :: 0 <= k < |bs| ==> WellFormed(bs[k])
  }

  /** `torch.max(scores, 1)[1]`: the index of the first maximal score. */
  function ArgMax(scores: seq<int>): (k: nat)
    requires |scores| > 0
    ensures k < |scores|
    ensures forall j :: 0 <= j < |scores| ==> scores[j] <= scores[k]
    ensures forall j :: 0 <= j < k ==> scores[j] < scores[k]
    decreases |scores|
  {
    if |scores| == 1 then 0
    else
      var k := ArgMax(scores[..|scores| - 1]);
      if scores[|scores| - 1] > scores[k] then |scores| - 1 else k
  }

  predicate Hit(x: Sample)
    requires |x.scores| > 0
  {
    ArgMax(x.scores) == x.truth
  }

  /** `torch.sum(preds == labels)` for one batch. */
  function BatchCorrect(b: Batch): (c: nat)
    requires WellFormed(b)
    ensures c <= |b|
    ensures c == |b| <==> forall k :: 0 <= k < |b| ==> Hit(b[k])
    ensures c == 0 <==> forall k :: 0 <= k < |b| ==> !Hit(b[k])
  {
    if b == [] then 0
    else
      assert forall k :: 1 <= k < |b| ==> b[1..][k - 1] == b[k];
      (if Hit(b[0]) then 1 else 0) + BatchCorrect(b[1..])
  }

  /** Number of samples in a sequence of batches. */
  function Samples(bs: seq<Batch>): nat {
    if bs == [] then 0 else |bs[0]| + Samples(bs[1..])
  }

  /** The correct predictions summed over all batches. */
  function Correct(bs: seq<Batch>): (c: nat)
    requires AllWellFormed(bs)
    ensures c <= Samples(bs)
  {
    if bs == [] then 0 else BatchCorrect(bs[0]) + Correct(bs[1..])
  }

  /** The `running_corrects` loop over a loader's batches. */
  method CountCorrect(bs: seq<Batch>) returns (runningCorrects: nat)
    requires AllWellFormed(bs)
    ensures runningCorrects == Correct(bs)
    ensures runningCorrects <= Samples(bs)
  {
    runningCorrects := 0;
    var k := 0;
    while k < |bs|
      invariant 0 <= k <= |bs|
      invariant runningCorrects + Correct(bs[k..]) == Correct(bs)
    {
      assert bs[k..][1..] == bs[k + 1..];
      runningCorrects := runningCorrects + BatchCorrect(bs[k]);
      k := k + 1;
    }
  }

  /** The batches a pass over `l` yields: one per batch, each as large as the loader cuts it. */
  predicate Shaped(bs: seq<Batch>, l: Loader)
    requires l.Valid()
  {
    |bs| == NumBatches(l) &&
    forall k :: 0 <= k < |bs| ==> |bs[k]| == BatchSizes(l)[k] && WellFormed(bs[k])
  }

  lemma {:induction false} SamplesOfSizes(bs: seq<Batch>, sizes: seq<nat>)
    requires |bs| == |sizes| && forall k :: 0 <= k < |bs| ==> |bs[k]| == sizes[k]
    ensures Samples(bs) == Sum(sizes)
  {
    if bs != [] {
      SamplesOfSizes(bs[1..], sizes[1..]);
    }
  }

  /** A shaped pass holds at most `len(loader) * batch_size` samples, and exactly the
      dataset when the loader keeps its last batch. */
  lemma ShapedSamples(bs: seq<Batch>, l: Loader)
    requires l.Valid() && Shaped(bs, l)
    ensures AllWellFormed(bs)
    ensures Samples(bs) <= NumBatches(l) * l.batchSize
    ensures !l.dropLast ==> Samples(bs) == l.datasetSize
  {
    SamplesOfSizes(bs, BatchSizes(l));
    BatchSizesProperties(l);
  }

  /** Validation accuracy: `running_corrects / float(len(loader) * loader.batch_size)`. */
  function ValidationAccuracy(correct: nat, l: Loader): (r: Result<real>)
    requires l.Valid()
    ensures r.Err? <==> NumBatches(l) == 0
    ensures r.Err? ==> r.failure == ZeroDivision
    ensures r.Ok? ==> r.value * (NumBatches(l) * l.batchSize) as real == correct as real
  {
    var denominator := NumBatches(l) * l.batchSize;
    if denominator == 0 then Err(ZeroDivision) else Ok(correct as real / denominator as real)
  }

  /** Test accuracy: `running_corrects / float(len(art_dataset))`. */
  function TestAccuracy(correct: nat, datasetSize: nat): (r: Result<real>)
    ensures r.Err? <==> datasetSize == 0
    ensures r.Err? ==> r.failure == ZeroDivision
    ensures r.Ok? ==> r.value * datasetSize as real == correct as real
  {
    if datasetSize == 0 then Err(ZeroDivision) else Ok(correct as real / datasetSize as real)
  }

  lemma UnitFraction(x: nat, y: nat)
    requires x <= y && y > 0
    ensures 0.0 <= x as real / y as real <= 1.0
  {
  }

  /** Validation accuracy of a shaped pass lies in [0, 1]. The denominator counts full
      batches, so a short last batch pulls the value below the fraction of hits. */
  lemma ValidationAccuracyInRange(bs: seq<Batch>, l: Loader)
    requires l.Valid() && Shaped(bs, l)
    ensures AllWellFormed(bs)
    ensures ValidationAccuracy(Correct(bs), l).Ok? ==>
              0.0 <= ValidationAccuracy(Correct(bs), l).value <= 1.0
  {
    ShapedSamples(bs, l);
    var d := NumBatches(l) * l.batchSize;
    if d > 0 {
      assert Correct(bs) <= d;
      UnitFraction(Correct(bs), d);
    }
  }

  /** Over a full pass of a loader that keeps its last batch, the test accuracy is exactly
      hits / samples, and so lies in [0, 1]. */
  lemma TestAccuracyExact(bs: seq<Batch>, l: Loader)
    requires l.Valid() && !l.dropLast && Shaped(bs, l)
    ensures AllWellFormed(bs) && Samples(bs) == l.datasetSize
    ensures TestAccuracy(Correct(bs), l.datasetSize).Ok? <==> Samples(bs) > 0
    ensures Samples(bs) > 0 ==>
              TestAccuracy(Correct(bs), l.datasetSize).value == Correct(bs) as real / Samples(bs) as real
    ensures Samples(bs) > 0 ==> 0.0 <= TestAccuracy(Correct(bs), l.datasetSize).value <= 1.0
  {
    ShapedSamples(bs, l);
    if Samples(bs) > 0 {
      UnitFraction(Correct(bs), Samples(bs));
    }
  }
}
