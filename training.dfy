/** The training loop: for each epoch, for each source batch, zero the gradients, backward the
    classification loss and, with domain adaptation, draw a target batch and backward the two
    discriminator losses, then take one optimizer step; after the batches, optionally
    validate on the target loader, then advance the epoch counter and the scheduler.
    Forward passes, losses and gradients are opaque: a loss value is whatever the network
    returned at that (epoch, batch), and a gradient is counted, not computed. */
module Training {
  import opened Runtime
  import opened Config
  import opened Batching
  import opened Accuracy

  /** The calls the loop makes on the optimizer, the network's backward passes and the
      target loader, in the order it makes them. */
  datatype Event =
    | ZeroGrad
    | BackwardClass
    | DrawTarget
    | BackwardSource
    | BackwardTarget
    | OptimizerStep(accumulated: nat) // number of backward passes whose gradients it applies
    | SchedulerStep

  /** Everything the loop leaves behind: the counters, the metric lists, the number of
      backward passes accumulated since the last `zero_grad`, and the event trace. */
  datatype Log<L> = Log(
    currentStep: nat,
    lossClass: seq<L>,
    lossSource: seq<L>,
    lossTarget: seq<L>,
    accuraciesValidation: seq<real>,
    pendingGrads: nat,
    trace: seq<Event>)

  function EmptyLog<L>(): Log<L> {
    Log(0, [], [], [], [], 0, [])
  }

  /** The log a run reached, and the exception that stopped it, if any. */
  datatype Outcome<L> = Outcome(log: Log<L>, failure: Option<Failure>)

  /** What the loop reads: the dispatcher's globals, NUM_EPOCHS, BATCH_SIZE, the two loaders,
      and the network's opaque answers (the three losses per (epoch, batch), and the scored
      target batches of each epoch's validation pass). */
  datatype Setup<L> = Setup(
    flags: Flags,
    numEpochs: nat,
    batchSize: nat,
    source: Loader,
    target: Loader,
    classLoss: (nat, nat) -> L,
    sourceLoss: (nat, nat) -> L,
    targetLoss: (nat, nat) -> L,
    validation: nat -> seq<Batch>)

  /** The loop is entered only after the guard at line 200 has read the domain-adaptation
      flag, so that flag is assigned; every loader uses BATCH_SIZE. */
  ghost predicate ValidSetup<L>(s: Setup<L>) {
    s.batchSize > 0 && s.source.batchSize == s.batchSize && s.target.batchSize == s.batchSize &&
    s.flags.useDomainAdaptation.Assigned? &&
    forall e: nat :: Shaped(s.validation(e), s.target)
  }

  function UsesDA<L>(s: Setup<L>): bool
    requires s.flags.useDomainAdaptation.Assigned?
  {
    s.flags.useDomainAdaptation.value
  }

  /** Backward passes per batch: the classifier's, plus the two discriminator passes. */
  function PerBatchBackwards(da: bool): nat {
    if da then 3 else 1
  }

  function Stepped<L>(log: Log<L>): Log<L> {
    log.(trace := log.trace + [OptimizerStep(log.pendingGrads)])
  }

  function Advanced<L>(log: Log<L>): Log<L> {
    log.(currentStep := log.currentStep + 1, trace := log.trace + [SchedulerStep])
  }

  /** Lines 231-240: `zero_grad`, then the classification loss recorded and backpropagated. */
  function Classified<L>(s: Setup<L>, log: Log<L>, e: nat, i: nat): Log<L> {
    var zeroed := log.(pendingGrads := 0, trace := log.trace + [ZeroGrad]);
    zeroed.(lossClass := zeroed.lossClass + [s.classLoss(e, i)],
            pendingGrads := zeroed.pendingGrads + 1,
            trace := zeroed.trace + [BackwardClass])
  }

  /** Lines 246-271, run only with domain adaptation: draw the first batch of a fresh pass
      over the target loader, then the source and target discriminator losses. The zeros
      label vector has BATCH_SIZE entries and must match source batch `i`; the ones vector
      must match the drawn target batch. */
  function Adapted<L>(s: Setup<L>, log: Log<L>, e: nat, i: nat): Outcome<L>
    requires ValidSetup(s) && i < NumBatches(s.source)
  {
    if NumBatches(s.target) == 0 then
      Outcome(log, Some(StopIteration))
    else
      var drawn := log.(trace := log.trace + [DrawTarget]);
      if BatchSizes(s.source)[i] != s.batchSize then
        Outcome(drawn, Some(ShapeMismatch))
      else
        var sourced := drawn.(lossSource := drawn.lossSource + [s.sourceLoss(e, i)],
                              pendingGrads := drawn.pendingGrads + 1,
                              trace := drawn.trace + [BackwardSource]);
        if BatchSizes(s.target)[0] != s.batchSize then
          Outcome(sourced, Some(ShapeMismatch))
        else
          Outcome(sourced.(lossTarget := sourced.lossTarget + [s.targetLoss(e, i)],
                           pendingGrads := sourced.pendingGrads + 1,
                           trace := sourced.trace + [BackwardTarget]), None)
  }

  /** One source batch `i` of epoch `e`, ending with the single optimizer step. */
  function BatchStep<L>(s: Setup<L>, log: Log<L>, e: nat, i: nat): Outcome<L>
    requires ValidSetup(s) && i < NumBatches(s.source)
  {
    var classified := Classified(s, log, e, i);
    var o := if UsesDA(s) then Adapted(s, classified, e, i) else Outcome(classified, None);
    if o.failure.Some? then o else Outcome(Stepped(o.log), None)
  }

  /** The first `n` source batches of epoch `e`; an exception ends the run where it occurs. */
  function RunBatches<L>(s: Setup<L>, log: Log<L>, e: nat, n: nat): Outcome<L>
    requires ValidSetup(s) && n <= NumBatches(s.source)
  {
    if n == 0 then Outcome(log, None)
    else
      var o := RunBatches(s, log, e, n - 1);
      if o.failure.Some? then o else BatchStep(s, o.log, e, n - 1)
  }

  /** The end of epoch `e`: the read of USE_VALIDATION and the optional validation pass,
      then `current_step += 1` and the scheduler step. */
  function EpochTail<L>(s: Setup<L>, log: Log<L>, e: nat): Outcome<L>
    requires ValidSetup(s)
  {
    match s.flags.useValidation
    case Unassigned => Outcome(log, Some(NameError("USE_VALIDATION")))
    case Assigned(v) =>
      if !v then Outcome(Advanced(log), None)
      else
        assert Shaped(s.validation(e), s.target);
        ShapedSamples(s.validation(e), s.target);
        match ValidationAccuracy(Correct(s.validation(e)), s.target)
        case Err(f) => Outcome(log, Some(f))
        case Ok(acc) =>
          Outcome(Advanced(log.(accuraciesValidation := log.accuraciesValidation + [acc])), None)
  }

  /** One whole epoch: all source batches, then the end-of-epoch work. */
  function EpochStep<L>(s: Setup<L>, log: Log<L>, e: nat): Outcome<L>
    requires ValidSetup(s)
  {
    var o := RunBatches(s, log, e, NumBatches(s.source));
    if o.failure.Some? then o else EpochTail(s, o.log, e)
  }

  /** The first `n` epochs, from empty lists. */
  function Epochs<L>(s: Setup<L>, n: nat): Outcome<L>
    requires ValidSetup(s)
  {
    if n == 0 then Outcome(EmptyLog(), None)
    else
      var o := Epochs(s, n - 1);
      if o.failure.Some? then o else EpochStep(s, o.log, n - 1)
  }

  // ---------------------------------------------------------------------------------------
  // When a run raises

  /** Batch `i` raises: domain adaptation is on and the target loader is empty, or the zeros
      vector does not fit the source batch, or the ones vector does not fit the target batch. */
  ghost predicate BatchFails<L>(s: Setup<L>, i: nat)
    requires ValidSetup(s) && i < NumBatches(s.source)
  {
    UsesDA(s) &&
    (NumBatches(s.target) == 0 || BatchSizes(s.source)[i] != s.batchSize ||
     BatchSizes(s.target)[0] != s.batchSize)
  }

  ghost predicate BatchesClean<L>(s: Setup<L>)
    requires ValidSetup(s)
  {
    forall i :: 0 <= i < NumBatches(s.source) ==> !BatchFails(s, i)
  }

  /** The end of an epoch raises when USE_VALIDATION was never assigned, or when validation
      divides by a loader of length zero. */
  ghost predicate TailClean<L>(s: Setup<L>)
  {
    s.flags.useValidation.Assigned? &&
    (s.flags.useValidation.value ==> s.target.Valid() && NumBatches(s.target) > 0)
  }

  ghost predicate Clean<L>(s: Setup<L>)
    requires ValidSetup(s)
  {
    BatchesClean(s) && TailClean(s)
  }

  // ---------------------------------------------------------------------------------------
  // The closed form of a run that does not raise

  /** The losses of epoch `e`'s first `n` batches, in batch order. */
  function Row<L>(f: (nat, nat) -> L, e: nat, n: nat): (r: seq<L>)
    ensures |r| == n
  {
    if n == 0 then [] else Row(f, e, n - 1) + [f(e, n - 1)]
  }

  /** The losses of `epochs` epochs of `n` batches each, epoch after epoch. */
  function Grid<L>(f: (nat, nat) -> L, epochs: nat, n: nat): seq<L> {
    if epochs == 0 then [] else Grid(f, epochs - 1, n) + Row(f, epochs - 1, n)
  }

  function Repeat<T>(t: seq<T>, n: nat): seq<T> {
    if n == 0 then [] else Repeat(t, n - 1) + t
  }

  /** The events of one batch that does not raise. */
  function BatchTrace(da: bool): seq<Event> {
    [ZeroGrad, BackwardClass] +
    (if da then [DrawTarget, BackwardSource, BackwardTarget] else []) +
    [OptimizerStep(PerBatchBackwards(da))]
  }

  function EpochTrace<L>(s: Setup<L>): seq<Event>
    requires ValidSetup(s)
  {
    Repeat(BatchTrace(UsesDA(s)), NumBatches(s.source)) + [SchedulerStep]
  }

  /** One validation accuracy per epoch when validation is on, none otherwise. */
  function AccuracyRow<L>(s: Setup<L>, epochs: nat): seq<real>
    requires ValidSetup(s) && TailClean(s)
  {
    if epochs == 0 then []
    else
      AccuracyRow(s, epochs - 1) +
      if s.flags.useValidation.value then
        assert Shaped(s.validation(epochs - 1), s.target);
        ShapedSamples(s.validation(epochs - 1), s.target);
        [ValidationAccuracy(Correct(s.validation(epochs - 1)), s.target).value]
      else []
  }

  /** The log after `epochs` epochs in which nothing raised. */
  function CleanLog<L>(s: Setup<L>, epochs: nat): Log<L>
    requires ValidSetup(s) && TailClean(s)
  {
    var da, n := UsesDA(s), NumBatches(s.source);
    Log(epochs,
        Grid(s.classLoss, epochs, n),
        if da then Grid(s.sourceLoss, epochs, n) else [],
        if da then Grid(s.targetLoss, epochs, n) else [],
        AccuracyRow(s, epochs),
        if epochs > 0 && n > 0 then PerBatchBackwards(da) else 0,
        Repeat(EpochTrace(s), epochs))
  }

  /** `log` after the first `n` batches of epoch `e`, none of which raised. */
  function AfterBatches<L>(s: Setup<L>, log: Log<L>, e: nat, n: nat): Log<L>
    requires ValidSetup(s)
  {
    var da := UsesDA(s);
    log.(lossClass := log.lossClass + Row(s.classLoss, e, n),
         lossSource := log.lossSource + (if da then Row(s.sourceLoss, e, n) else []),
         lossTarget := log.lossTarget + (if da then Row(s.targetLoss, e, n) else []),
         pendingGrads := if n == 0 then log.pendingGrads else PerBatchBackwards(da),
         trace := log.trace + Repeat(BatchTrace(da), n))
  }

  lemma BatchStepClean<L>(s: Setup<L>, log: Log<L>, e: nat, i: nat)
    requires ValidSetup(s) && i < NumBatches(s.source) && !BatchFails(s, i)
    ensures BatchStep(s, log, e, i).failure.None?
    ensures var l := BatchStep(s, log, e, i).log;
            var da := UsesDA(s);
            l == log.(lossClass := log.lossClass + [s.classLoss(e, i)],
                      lossSource := log.lossSource + (if da then [s.sourceLoss(e, i)] else []),
                      lossTarget := log.lossTarget + (if da then [s.targetLoss(e, i)] else []),
                      pendingGrads := PerBatchBackwards(da),
                      trace := log.trace + BatchTrace(da))
  {
  }

  lemma {:induction false} RunBatchesClean<L>(s: Setup<L>, log: Log<L>, e: nat, n: nat)
    requires ValidSetup(s) && BatchesClean(s) && n <= NumBatches(s.source)
    ensures RunBatches(s, log, e, n) == Outcome(AfterBatches(s, log, e, n), None)
  {
    var da := UsesDA(s);
    if n == 0 {
      assert AfterBatches(s, log, e, 0) == log;
    } else {
      RunBatchesClean(s, log, e, n - 1);
      var prev := AfterBatches(s, log, e, n - 1);
      assert !BatchFails(s, n - 1);
      BatchStepClean(s, prev, e, n - 1);
      assert prev.lossClass + [s.classLoss(e, n - 1)] == log.lossClass + Row(s.classLoss, e, n);
      assert prev.trace + BatchTrace(da) == log.trace + Repeat(BatchTrace(da), n);
      if da {
        assert prev.lossSource + [s.sourceLoss(e, n - 1)] == log.lossSource + Row(s.sourceLoss, e, n);
        assert prev.lossTarget + [s.targetLoss(e, n - 1)] == log.lossTarget + Row(s.targetLoss, e, n);
      }
    }
  }

  /** A run in which nothing raises has exactly the closed-form log. */
  lemma {:induction false} EpochsClean<L>(s: Setup<L>, epochs: nat)
    requires ValidSetup(s) && Clean(s)
    ensures Epochs(s, epochs) == Outcome(CleanLog(s, epochs), None)
  {
    if epochs > 0 {
      var e := epochs - 1;
      var n := NumBatches(s.source);
      var da := UsesDA(s);
      EpochsClean(s, e);
      var prev := CleanLog(s, e);
      RunBatchesClean(s, prev, e, n);
      var batched := AfterBatches(s, prev, e, n);
      assert batched.trace + [SchedulerStep] == Repeat(EpochTrace(s), epochs);
      assert batched.lossClass == Grid(s.classLoss, epochs, n);
      if s.flags.useValidation.value {
        ShapedSamples(s.validation(e), s.target);
      }
    }
  }

  // ---------------------------------------------------------------------------------------
  // Raising runs

  lemma {:induction false} RunBatchesSticky<L>(s: Setup<L>, log: Log<L>, e: nat, m: nat, n: nat)
    requires ValidSetup(s) && m <= n <= NumBatches(s.source)
    requires RunBatches(s, log, e, m).failure.Some?
    ensures RunBatches(s, log, e, n) == RunBatches(s, log, e, m)
    decreases n
  {
    if n > m {
      RunBatchesSticky(s, log, e, m, n - 1);
    }
  }

  lemma {:induction false} EpochsSticky<L>(s: Setup<L>, m: nat, n: nat)
    requires ValidSetup(s) && m <= n && Epochs(s, m).failure.Some?
    ensures Epochs(s, n) == Epochs(s, m)
    decreases n
  {
    if n > m {
      EpochsSticky(s, m, n - 1);
    }
  }

  lemma {:induction false} RunBatchesFails<L>(s: Setup<L>, log: Log<L>, e: nat, n: nat, i: nat)
    requires ValidSetup(s) && i < n <= NumBatches(s.source) && BatchFails(s, i)
    ensures RunBatches(s, log, e, n).failure.Some?
  {
    if i < n - 1 {
      RunBatchesFails(s, log, e, n - 1, i);
    }
  }

  lemma {:induction false} RunBatchesKeepsStep<L>(s: Setup<L>, log: Log<L>, e: nat, n: nat)
    requires ValidSetup(s) && n <= NumBatches(s.source)
    ensures RunBatches(s, log, e, n).log.currentStep == log.currentStep
    ensures RunBatches(s, log, e, n).log.accuraciesValidation == log.accuraciesValidation
  {
    if n > 0 {
      RunBatchesKeepsStep(s, log, e, n - 1);
    }
  }

  /** A run raises exactly when it has at least one epoch and the setup is not clean, and
      then it raises within the first epoch, before `current_step` is ever incremented. */
  lemma FailureIffUnclean<L>(s: Setup<L>, epochs: nat)
    requires ValidSetup(s)
    ensures Epochs(s, epochs).failure.None? <==> epochs == 0 || Clean(s)
    ensures Epochs(s, epochs).failure.Some? ==>
              Epochs(s, epochs) == EpochStep(s, EmptyLog(), 0) &&
              Epochs(s, epochs).log.currentStep == 0 &&
              Epochs(s, epochs).log.accuraciesValidation == []
  {
    if epochs > 0 {
      if Clean(s) {
        EpochsClean(s, epochs);
      } else {
        var n := NumBatches(s.source);
        var empty: Log<L> := EmptyLog();
        RunBatchesKeepsStep(s, empty, 0, n);
        if !BatchesClean(s) {
          var i :| 0 <= i < n && BatchFails(s, i);
          RunBatchesFails(s, empty, 0, n, i);
        } else {
          RunBatchesClean(s, empty, 0, n);
        }
        assert Epochs(s, 1) == EpochStep(s, empty, 0);
        EpochsSticky(s, 1, epochs);
      }
    }
  }

  // ---------------------------------------------------------------------------------------
  // What a clean run leaves behind

  lemma {:induction false} GridIndex<L>(f: (nat, nat) -> L, epochs: nat, n: nat, e: nat, i: nat)
    requires e < epochs && i < n
    ensures |Grid(f, epochs, n)| == epochs * n
    ensures e * n + i < epochs * n && Grid(f, epochs, n)[e * n + i] == f(e, i)
  {
    GridLength(f, epochs - 1, n);
    if e < epochs - 1 {
      GridIndex(f, epochs - 1, n, e, i);
    } else {
      RowIndex(f, e, n, i);
    }
  }

  lemma {:induction false} GridLength<L>(f: (nat, nat) -> L, epochs: nat, n: nat)
    ensures |Grid(f, epochs, n)| == epochs * n
  {
    if epochs > 0 {
      GridLength(f, epochs - 1, n);
    }
  }

  lemma {:induction false} RowIndex<L>(f: (nat, nat) -> L, e: nat, n: nat, i: nat)
    requires i < n
    ensures Row(f, e, n)[i] == f(e, i)
  {
    if i < n - 1 {
      RowIndex(f, e, n - 1, i);
    }
  }

  /** Occurrences of `x` in `t`. */
  function Count<T(==)>(t: seq<T>, x: T): nat {
    if t == [] then 0 else (if t[0] == x then 1 else 0) + Count(t[1..], x)
  }

  lemma {:induction false} CountConcat<T>(a: seq<T>, b: seq<T>, x: T)
    ensures Count(a + b, x) == Count(a, x) + Count(b, x)
  {
    if a != [] {
      assert (a + b)[0] == a[0];
      assert (a + b)[1..] == a[1..] + b;
      CountConcat(a[1..], b, x);
    } else {
      assert a + b == b;
    }
  }

  lemma {:induction false} RepeatCount<T>(t: seq<T>, n: nat, x: T)
    ensures Count(Repeat(t, n), x) == n * Count(t, x)
  {
    if n > 0 {
      RepeatCount(t, n - 1, x);
      CountConcat(Repeat(t, n - 1), t, x);
      Distribute(n - 1, 1, Count(t, x));
    }
  }

  lemma {:induction false} RepeatMembers<T>(t: seq<T>, n: nat, x: T)
    ensures x in Repeat(t, n) ==> x in t
  {
    if n > 0 {
      RepeatMembers(t, n - 1, x);
    }
  }

  lemma {:induction false} AccuracyRowLength<L>(s: Setup<L>, epochs: nat)
    requires ValidSetup(s) && TailClean(s)
    ensures |AccuracyRow(s, epochs)| == if s.flags.useValidation.value then epochs else 0
  {
    if epochs > 0 {
      AccuracyRowLength(s, epochs - 1);
    }
  }

  /** After a clean run of E epochs over B source batches: `current_step == E`; E*B
      classification losses; as many source as target discriminator losses, E*B with domain
      adaptation and none without; one validation accuracy per epoch when validation is on. */
  lemma CleanRunLists<L>(s: Setup<L>, epochs: nat)
    requires ValidSetup(s) && Clean(s)
    ensures var o := Epochs(s, epochs);
            var n := NumBatches(s.source);
            o.failure.None? &&
            o.log.currentStep == epochs &&
            |o.log.lossClass| == epochs * n &&
            |o.log.lossSource| == |o.log.lossTarget| == (if UsesDA(s) then epochs * n else 0) &&
            |o.log.accuraciesValidation| == (if s.flags.useValidation.value then epochs else 0)
  {
    var n := NumBatches(s.source);
    EpochsClean(s, epochs);
    GridLength(s.classLoss, epochs, n);
    GridLength(s.sourceLoss, epochs, n);
    GridLength(s.targetLoss, epochs, n);
    AccuracyRowLength(s, epochs);
  }

  /** In a clean run the classification loss of batch `i` of epoch `e` is entry `e*B + i`:
      the list holds the losses epoch after epoch, in batch order. */
  lemma CleanRunLossOrder<L>(s: Setup<L>, epochs: nat, e: nat, i: nat)
    requires ValidSetup(s) && Clean(s) && e < epochs && i < NumBatches(s.source)
    ensures var l := Epochs(s, epochs).log.lossClass;
            e * NumBatches(s.source) + i < |l| &&
            l[e * NumBatches(s.source) + i] == s.classLoss(e, i)
  {
    EpochsClean(s, epochs);
    GridIndex(s.classLoss, epochs, NumBatches(s.source), e, i);
  }

  lemma TraceCount<L>(s: Setup<L>, epochs: nat, x: Event)
    requires ValidSetup(s)
    ensures Count(Repeat(EpochTrace(s), epochs), x) ==
              epochs * (NumBatches(s.source) * Count(BatchTrace(UsesDA(s)), x) +
                        (if x == SchedulerStep then 1 else 0))
  {
    var bt := BatchTrace(UsesDA(s));
    RepeatCount(EpochTrace(s), epochs, x);
    RepeatCount(bt, NumBatches(s.source), x);
    CountConcat(Repeat(bt, NumBatches(s.source)), [SchedulerStep], x);
  }

  lemma CountSingleton<T>(y: T, x: T)
    ensures Count([y], x) == if y == x then 1 else 0
  {
    assert [y][1..] == [];
  }

  lemma BatchTraceCount(da: bool, x: Event)
    ensures Count(BatchTrace(da), x) ==
              (if x == ZeroGrad then 1 else 0) +
              (if x == BackwardClass then 1 else 0) +
              (if da && x == DrawTarget then 1 else 0) +
              (if da && x == BackwardSource then 1 else 0) +
              (if da && x == BackwardTarget then 1 else 0) +
              (if x == OptimizerStep(PerBatchBackwards(da)) then 1 else 0)
  {
    CountSingleton(ZeroGrad, x);
    CountSingleton(BackwardClass, x);
    CountSingleton(DrawTarget, x);
    CountSingleton(BackwardSource, x);
    CountSingleton(BackwardTarget, x);
    CountSingleton(OptimizerStep(PerBatchBackwards(da)), x);
    var middle: seq<Event> := if da then [DrawTarget, BackwardSource, BackwardTarget] else [];
    assert [ZeroGrad, BackwardClass] == [ZeroGrad] + [BackwardClass];
    CountConcat([ZeroGrad], [BackwardClass], x);
    if da {
      assert middle == [DrawTarget] + [BackwardSource] + [BackwardTarget];
      CountConcat([DrawTarget], [BackwardSource], x);
      CountConcat([DrawTarget] + [BackwardSource], [BackwardTarget], x);
    }
    CountConcat([ZeroGrad, BackwardClass], middle, x);
    CountConcat([ZeroGrad, BackwardClass] + middle, [OptimizerStep(PerBatchBackwards(da))], x);
  }

  lemma CleanTrace<L>(s: Setup<L>, epochs: nat)
    requires ValidSetup(s) && Clean(s)
    ensures Epochs(s, epochs).log.trace == Repeat(EpochTrace(s), epochs)
  {
    EpochsClean(s, epochs);
  }

  /** The event counts of a clean run: E*B gradient resets and E*B optimizer steps; the
      target loader drawn once per batch with domain adaptation and never without; one
      scheduler step per epoch. */
  lemma CleanRunCounts<L>(s: Setup<L>, epochs: nat)
    requires ValidSetup(s) && Clean(s)
    ensures var t := Epochs(s, epochs).log.trace;
            var n := NumBatches(s.source);
            var da := UsesDA(s);
            Count(t, ZeroGrad) == epochs * n &&
            Count(t, OptimizerStep(PerBatchBackwards(da))) == epochs * n &&
            Count(t, DrawTarget) == (if da then epochs * n else 0) &&
            Count(t, SchedulerStep) == epochs
  {
    var da := UsesDA(s);
    var n := NumBatches(s.source);
    var step := OptimizerStep(PerBatchBackwards(da));
    CleanTrace(s, epochs);
    var t := Repeat(EpochTrace(s), epochs);
    BatchTraceCount(da, ZeroGrad);
    BatchTraceCount(da, step);
    BatchTraceCount(da, DrawTarget);
    BatchTraceCount(da, SchedulerStep);
    TraceCount(s, epochs, ZeroGrad);
    TraceCount(s, epochs, step);
    TraceCount(s, epochs, DrawTarget);
    TraceCount(s, epochs, SchedulerStep);
    assert Count(t, ZeroGrad) == epochs * (n * 1 + 0);
    assert Count(t, step) == epochs * (n * 1 + 0);
    assert Count(t, DrawTarget) == epochs * (n * (if da then 1 else 0) + 0);
    assert Count(t, SchedulerStep) == epochs * (n * 0 + 1);
  }

  /** In a clean run every optimizer step applies exactly the backward passes of its own
      batch (1, or 3 with domain adaptation): the gradients were zeroed at the batch start. */
  lemma CleanRunSteps<L>(s: Setup<L>, epochs: nat)
    requires ValidSetup(s) && Clean(s)
    ensures var t := Epochs(s, epochs).log.trace;
            forall k :: 0 <= k < |t| && t[k].OptimizerStep? ==>
              t[k].accumulated == PerBatchBackwards(UsesDA(s))
  {
    var n := NumBatches(s.source);
    var bt := BatchTrace(UsesDA(s));
    EpochsClean(s, epochs);
    var t := Repeat(EpochTrace(s), epochs);
    forall k | 0 <= k < |t| && t[k].OptimizerStep?
      ensures t[k].accumulated == PerBatchBackwards(UsesDA(s))
    {
      var x := t[k];
      RepeatMembers(EpochTrace(s), epochs, x);
      RepeatMembers(bt, n, x);
    }
  }

  // ---------------------------------------------------------------------------------------
  // Without domain adaptation the target loader is never touched

  ghost predicate NoAdaptation<L>(log: Log<L>) {
    log.lossSource == [] && log.lossTarget == [] &&
    DrawTarget !in log.trace && BackwardSource !in log.trace && BackwardTarget !in log.trace
  }

  lemma {:induction false} RunBatchesNoAdaptation<L>(s: Setup<L>, log: Log<L>, e: nat, n: nat)
    requires ValidSetup(s) && !UsesDA(s) && n <= NumBatches(s.source) && NoAdaptation(log)
    ensures NoAdaptation(RunBatches(s, log, e, n).log)
  {
    if n > 0 {
      RunBatchesNoAdaptation(s, log, e, n - 1);
    }
  }

  /** With domain adaptation off, whatever happens, no target batch is drawn, no
      discriminator loss is computed and none is recorded. */
  lemma {:induction false} EpochsNoAdaptation<L>(s: Setup<L>, epochs: nat)
    requires ValidSetup(s) && !UsesDA(s)
    ensures NoAdaptation(Epochs(s, epochs).log)
  {
    if epochs > 0 {
      EpochsNoAdaptation(s, epochs - 1);
      var o := Epochs(s, epochs - 1);
      RunBatchesNoAdaptation(s, o.log, epochs - 1, NumBatches(s.source));
    }
  }

  // ---------------------------------------------------------------------------------------
  // The loop itself

  class Trainer<L> {
    var currentStep: nat
    var lossClassList: seq<L>
    var lossSourceList: seq<L>
    var lossTargetList: seq<L>
    var accuraciesValidation: seq<real>
    var pendingGrads: nat
    var trace: seq<Event>

    function State(): Log<L>
      reads this
    {
      Log(currentStep, lossClassList, lossSourceList, lossTargetList, accuraciesValidation,
          pendingGrads, trace)
    }

    constructor ()
      ensures State() == EmptyLog()
    {
      currentStep := 0;
      lossClassList, lossSourceList, lossTargetList := [], [], [];
      accuraciesValidation := [];
      pendingGrads := 0;
      trace := [];
    }

    /** Lines 231-240 of the inner loop's body. */
    method Classify(s: Setup<L>, e: nat, i: nat)
      modifies this
      ensures State() == Classified(s, old(State()), e, i)
    {
      pendingGrads := 0;
      trace := trace + [ZeroGrad];
      lossClassList := lossClassList + [s.classLoss(e, i)];
      pendingGrads := pendingGrads + 1;
      trace := trace + [BackwardClass];
    }

    /** Lines 246-271 of the inner loop's body. */
    method Adapt(s: Setup<L>, e: nat, i: nat) returns (failure: Option<Failure>)
      requires ValidSetup(s) && i < NumBatches(s.source)
      modifies this
      ensures Outcome(State(), failure) == Adapted(s, old(State()), e, i)
    {
      if NumBatches(s.target) == 0 {
        return Some(StopIteration);
      }
      trace := trace + [DrawTarget];
      if BatchSizes(s.source)[i] != s.batchSize {
        return Some(ShapeMismatch);
      }
      lossSourceList := lossSourceList + [s.sourceLoss(e, i)];
      pendingGrads := pendingGrads + 1;
      trace := trace + [BackwardSource];
      if BatchSizes(s.target)[0] != s.batchSize {
        return Some(ShapeMismatch);
      }
      lossTargetList := lossTargetList + [s.targetLoss(e, i)];
      pendingGrads := pendingGrads + 1;
      trace := trace + [BackwardTarget];
      failure := None;
    }

    /** The body of the inner `for` loop, for source batch `i` of epoch `e`. */
    method TrainBatch(s: Setup<L>, e: nat, i: nat) returns (failure: Option<Failure>)
      requires ValidSetup(s) && i < NumBatches(s.source)
      modifies this
      ensures Outcome(State(), failure) == BatchStep(s, old(State()), e, i)
    {
      Classify(s, e, i);
      failure := None;
      if UsesDA(s) {
        failure := Adapt(s, e, i);
        if failure.Some? {
          return;
        }
      }
      trace := trace + [OptimizerStep(pendingGrads)];
    }

    /** The inner `for` loop over the source batches of epoch `e`. */
    method TrainBatches(s: Setup<L>, e: nat) returns (failure: Option<Failure>)
      requires ValidSetup(s)
      modifies this
      ensures Outcome(State(), failure) == RunBatches(s, old(State()), e, NumBatches(s.source))
    {
      ghost var start := State();
      var n := NumBatches(s.source);
      var i := 0;
      while i < n
        invariant 0 <= i <= n
        invariant RunBatches(s, start, e, i) == Outcome(State(), None)
      {
        failure := TrainBatch(s, e, i);
        if failure.Some? {
          RunBatchesSticky(s, start, e, i + 1, n);
          return;
        }
        i := i + 1;
      }
      failure := None;
    }

    /** The end of an epoch: validation when USE_VALIDATION says so, then the counters. */
    method FinishEpoch(s: Setup<L>, e: nat) returns (failure: Option<Failure>)
      requires ValidSetup(s)
      modifies this
      ensures Outcome(State(), failure) == EpochTail(s, old(State()), e)
    {
      match s.flags.useValidation
      case Unassigned =>
        return Some(NameError("USE_VALIDATION"));
      case Assigned(v) =>
        if v {
          assert Shaped(s.validation(e), s.target);
          ShapedSamples(s.validation(e), s.target);
          var runningCorrects := CountCorrect(s.validation(e));
          var accuracy := ValidationAccuracy(runningCorrects, s.target);
          if accuracy.Err? {
            return Some(accuracy.failure);
          }
          accuraciesValidation := accuraciesValidation + [accuracy.value];
        }
      currentStep := currentStep + 1;
      trace := trace + [SchedulerStep];
      failure := None;
    }

    /** One iteration of the outer `for` loop. */
    method RunEpoch(s: Setup<L>, e: nat) returns (failure: Option<Failure>)
      requires ValidSetup(s)
      modifies this
      ensures Outcome(State(), failure) == EpochStep(s, old(State()), e)
    {
      failure := TrainBatches(s, e);
      if failure.None? {
        failure := FinishEpoch(s, e);
      }
    }

    /** The training loop over NUM_EPOCHS epochs, starting from empty lists. */
    method Train(s: Setup<L>) returns (failure: Option<Failure>)
      requires ValidSetup(s) && State() == EmptyLog()
      modifies this
      ensures Outcome(State(), failure) == Epochs(s, s.numEpochs)
    {
      var epoch := 0;
      while epoch < s.numEpochs
        invariant 0 <= epoch <= s.numEpochs
        invariant Epochs(s, epoch) == Outcome(State(), None)
      {
        failure := RunEpoch(s, epoch);
        if failure.Some? {
          EpochsSticky(s, epoch + 1, s.numEpochs);
          return;
        }
        epoch := epoch + 1;
      }
      failure := None;
    }
  }
}
