/** The whole experiment script from the mode dispatcher to the final test pass: startup
    checks, the training loop, the test accuracy on the art domain, and the two reads in the
    closing report that can still raise. */
module Script {
  import opened Runtime
  import opened Config
  import opened Batching
  import opened Accuracy
  import opened Training

  /** The script's compiled-in choices (MODE, ALPHA, NUM_EPOCHS, BATCH_SIZE), the sizes of the
      four image folders, and the network's opaque answers: losses per (epoch, batch), the
      scored batches of each validation pass per target domain and epoch, and the scored
      batches of the test pass. */
  datatype Inputs<L> = Inputs(
    mode: Option<string>,
    alpha: Option<real>,
    numEpochs: nat,
    batchSize: nat,
    photoSize: nat,
    artSize: nat,
    cartoonSize: nat,
    sketchSize: nat,
    classLoss: (nat, nat) -> L,
    sourceLoss: (nat, nat) -> L,
    targetLoss: (nat, nat) -> L,
    validation: (Domain, nat) -> seq<Batch>,
    test: seq<Batch>)

  function DatasetSize<L>(inputs: Inputs<L>, d: Domain): nat {
    match d
    case Photo => inputs.photoSize
    case Art => inputs.artSize
    case Cartoon => inputs.cartoonSize
    case Sketch => inputs.sketchSize
  }

  /** The four DataLoaders: the photo (source) loader drops its last partial batch, the
      others keep it. */
  function LoaderOf<L>(inputs: Inputs<L>, d: Domain): Loader {
    Loader(DatasetSize(inputs, d), inputs.batchSize, d == Photo)
  }

  /** The network's outputs have the shape of the loader they were computed on. */
  ghost predicate ValidInputs<L>(inputs: Inputs<L>) {
    inputs.batchSize > 0 &&
    (forall d: Domain, e: nat :: Shaped(inputs.validation(d, e), LoaderOf(inputs, d))) &&
    Shaped(inputs.test, LoaderOf(inputs, Art))
  }

  function SetupFor<L>(inputs: Inputs<L>, g: Flags, d: Domain): Setup<L> {
    Setup(g, inputs.numEpochs, inputs.batchSize, LoaderOf(inputs, Photo), LoaderOf(inputs, d),
          inputs.classLoss, inputs.sourceLoss, inputs.targetLoss, (e: nat) => inputs.validation(d, e))
  }

  lemma SetupValid<L>(inputs: Inputs<L>, g: Flags, d: Domain)
    requires ValidInputs(inputs) && g.useDomainAdaptation.Assigned?
    ensures ValidSetup(SetupFor(inputs, g, d))
  {
    var s := SetupFor(inputs, g, d);
    forall e: nat ensures Shaped(s.validation(e), s.target) {
      assert s.validation(e) == inputs.validation(d, e);
    }
  }

  /** What the final report prints: the target domain and the test hits and accuracy. */
  datatype TestReport = TestReport(target: Domain, correct: nat, accuracy: real)

  /** The training log the run reached and how the script ended. */
  datatype Final<L> = Final(log: Log<L>, result: Result<TestReport>)

  /** The script, start to end. */
  function ScriptSpec<L>(inputs: Inputs<L>): Final<L>
    requires ValidInputs(inputs)
  {
    match Preset(inputs.mode, inputs.alpha)
    case Err(f) => Final(EmptyLog(), Err(f))
    case Ok(g) =>
      match CheckAlpha(g)
      case Err(f) => Final(EmptyLog(), Err(f))
      case Ok(_) =>
        match SelectTarget(g)
        case Err(f) => Final(EmptyLog(), Err(f))
        case Ok(d) =>
          SetupValid(inputs, g, d);
          var o := Epochs(SetupFor(inputs, g, d), inputs.numEpochs);
          if o.failure.Some? then Final(o.log, Err(o.failure.value))
          else
            ShapedSamples(inputs.test, LoaderOf(inputs, Art));
            var correct := Correct(inputs.test);
            match TestAccuracy(correct, inputs.artSize)
            case Err(f) => Final(o.log, Err(f))
            case Ok(accuracy) =>
              match g.useValidation
              case Unassigned => Final(o.log, Err(NameError("USE_VALIDATION")))
              case Assigned(v) =>
                if v && o.log.accuraciesValidation == [] then Final(o.log, Err(IndexError))
                else Final(o.log, Ok(TestReport(d, correct, accuracy)))
  }

  /** The script as it runs: each global assigned once, the loop run by a Trainer. */
  method RunScript<L>(inputs: Inputs<L>) returns (log: Log<L>, result: Result<TestReport>)
    requires ValidInputs(inputs)
    ensures Final(log, result) == ScriptSpec(inputs)
  {
    log := EmptyLog();
    var dispatched := Dispatch(inputs.mode, inputs.alpha);
    if dispatched.Err? {
      return log, Err(dispatched.failure);
    }
    var g := dispatched.value;
    var guard := CheckAlpha(g);
    if guard.Err? {
      return log, Err(guard.failure);
    }
    // every flag assignment that passes the guard also assigns transfer_set
    var selected := SelectTarget(g);
    var d := selected.value;
    SetupValid(inputs, g, d);
    var s := SetupFor(inputs, g, d);
    var trainer := new Trainer<L>();
    var failure := trainer.Train(s);
    log := trainer.State();
    if failure.Some? {
      return log, Err(failure.value);
    }
    ShapedSamples(inputs.test, LoaderOf(inputs, Art));
    var runningCorrects := CountCorrect(inputs.test);
    var accuracy := TestAccuracy(runningCorrects, inputs.artSize);
    if accuracy.Err? {
      return log, Err(accuracy.failure);
    }
    match g.useValidation
    case Unassigned =>
      return log, Err(NameError("USE_VALIDATION"));
    case Assigned(v) =>
      if v && log.accuraciesValidation == [] {
        return log, Err(IndexError);
      }
    result := Ok(TestReport(d, runningCorrects, accuracy.value));
  }

  // ---------------------------------------------------------------------------------------
  // How each mode ends

  /** With no MODE the script raises before any training step. */
  lemma NoModeStopsBeforeTraining<L>(inputs: Inputs<L>)
    requires ValidInputs(inputs) && inputs.mode.None?
    ensures ScriptSpec(inputs) == Final(EmptyLog(), Err(SelectModeError))
  {
  }

  /** A MODE outside the four presets leaves USE_DOMAIN_ADAPTATION unassigned: the guard's
      read of it raises, before any training step. */
  lemma UnknownModeStopsAtGuard<L>(inputs: Inputs<L>)
    requires ValidInputs(inputs) && inputs.mode.Some? && !IsPreset(inputs.mode.value)
    ensures ScriptSpec(inputs) == Final(EmptyLog(), Err(NameError("USE_DOMAIN_ADAPTATION")))
  {
    StartupOutcome(inputs.mode, inputs.alpha);
  }

  /** A domain-adaptation preset with ALPHA set to None raises at the guard, before any
      training step. */
  lemma MissingAlphaStopsAtGuard<L>(inputs: Inputs<L>)
    requires ValidInputs(inputs) && inputs.alpha.None?
    requires inputs.mode == Some("3B") || inputs.mode == Some("4C")
    ensures ScriptSpec(inputs) == Final(EmptyLog(), Err(AlphaMissingError))
  {
    StartupOutcome(inputs.mode, inputs.alpha);
  }

  /** Under domain adaptation no batch of the loop raises when the target folder holds at
      least BATCH_SIZE images: every photo batch is full (drop_last) and so is the first
      batch of every fresh pass over the target loader. */
  lemma BatchesCleanFor<L>(inputs: Inputs<L>, g: Flags, d: Domain)
    requires ValidInputs(inputs) && g.useDomainAdaptation.Assigned?
    requires g.useDomainAdaptation.value ==> DatasetSize(inputs, d) >= inputs.batchSize
    ensures ValidSetup(SetupFor(inputs, g, d)) && BatchesClean(SetupFor(inputs, g, d))
  {
    SetupValid(inputs, g, d);
    var s := SetupFor(inputs, g, d);
    if UsesDA(s) && d != Photo {
      BatchSizesProperties(s.source);
      FirstBatch(s.target);
    }
    if UsesDA(s) && d == Photo {
      BatchSizesProperties(s.source);
    }
  }

  /** Mode 3B never assigns USE_VALIDATION. With ALPHA set and an art folder of at least
      BATCH_SIZE images, the first epoch trains on every photo batch with all three losses and
      then raises at the read of USE_VALIDATION; with no epochs the same read in the report
      raises. */
  lemma Mode3BStopsAtValidationRead<L>(inputs: Inputs<L>)
    requires ValidInputs(inputs) && inputs.mode == Some("3B") && inputs.alpha.Some?
    requires inputs.artSize >= inputs.batchSize
    ensures ScriptSpec(inputs).result == Err(NameError("USE_VALIDATION"))
    ensures var log := ScriptSpec(inputs).log;
            var n := NumBatches(LoaderOf(inputs, Photo));
            log.currentStep == 0 &&
            |log.lossClass| == |log.lossSource| == |log.lossTarget| ==
              (if inputs.numEpochs > 0 then n else 0)
  {
    var g := Preset(inputs.mode, inputs.alpha).value;
    StartupOutcome(inputs.mode, inputs.alpha);
    BatchesCleanFor(inputs, g, Art);
    var s := SetupFor(inputs, g, Art);
    var n := NumBatches(s.source);
    if inputs.numEpochs > 0 {
      FailureIffUnclean(s, inputs.numEpochs);
      var empty: Log<L> := EmptyLog();
      RunBatchesClean(s, empty, 0, n);
    } else {
      ShapedSamples(inputs.test, LoaderOf(inputs, Art));
    }
  }

  /** The size conditions on the target folder are needed: in a domain-adaptation preset
      (3B targets art, 4C sketch) with ALPHA set and at least one full photo batch, a non-empty
      target folder smaller than BATCH_SIZE makes the ones vector of the first batch mismatch.
      For an empty target folder the lemma gives the StopIteration the first draw would
      raise; the script itself rejects empty folders when it builds the datasets. */
  lemma ShortTargetStopsFirstBatch<L>(inputs: Inputs<L>)
    requires ValidInputs(inputs) && inputs.alpha.Some? && inputs.numEpochs > 0
    requires inputs.mode == Some("3B") || inputs.mode == Some("4C")
    requires inputs.photoSize >= inputs.batchSize
    requires var d := if inputs.mode == Some("3B") then Art else Sketch;
             DatasetSize(inputs, d) < inputs.batchSize
    ensures var d := if inputs.mode == Some("3B") then Art else Sketch;
            ScriptSpec(inputs).result ==
              Err(if DatasetSize(inputs, d) == 0 then StopIteration else ShapeMismatch)
    ensures ScriptSpec(inputs).log.currentStep == 0 && |ScriptSpec(inputs).log.lossClass| == 1
  {
    StartupOutcome(inputs.mode, inputs.alpha);
    DocumentedPresets(inputs.alpha);
    var g := Preset(inputs.mode, inputs.alpha).value;
    var d := SelectTarget(g).value;
    SetupValid(inputs, g, d);
    var s := SetupFor(inputs, g, d);
    FirstBatch(s.target);
    DivStep(inputs.photoSize, inputs.batchSize);
    var n := NumBatches(s.source);
    var empty: Log<L> := EmptyLog();
    assert RunBatches(s, empty, 0, 1) == BatchStep(s, empty, 0, 0);
    RunBatchesSticky(s, empty, 0, 1, n);
    assert Epochs(s, 1) == EpochStep(s, empty, 0);
    EpochsSticky(s, 1, inputs.numEpochs);
  }

  /** A validating preset run for zero epochs raises IndexError at
      `accuracies_validation[-1]` in the report. */
  lemma NoEpochsThenIndexError<L>(inputs: Inputs<L>)
    requires ValidInputs(inputs) && inputs.numEpochs == 0 && inputs.artSize > 0
    requires inputs.mode == Some("4A") || (inputs.mode == Some("4C") && inputs.alpha.Some?)
    ensures ScriptSpec(inputs) == Final(EmptyLog(), Err(IndexError))
  {
    StartupOutcome(inputs.mode, inputs.alpha);
    ShapedSamples(inputs.test, LoaderOf(inputs, Art));
  }

  /** The conditions under which a preset runs to the end: art images for the test
      division; for 4A and 4C a non-empty sketch folder for validation and at least one epoch
      for the report; for 4C ALPHA set and, when the photo loader yields a batch, a sketch
      folder of at least BATCH_SIZE images so that the ones vector fits. */
  ghost predicate Completes<L>(inputs: Inputs<L>) {
    inputs.artSize > 0 &&
    (inputs.mode == Some("3A") ||
     (inputs.mode == Some("4A") && inputs.sketchSize > 0 && inputs.numEpochs > 0) ||
     (inputs.mode == Some("4C") && inputs.alpha.Some? && inputs.sketchSize > 0 &&
      inputs.numEpochs > 0 &&
      (inputs.sketchSize >= inputs.batchSize || inputs.photoSize < inputs.batchSize)))
  }

  /** A completing preset run: the target its transfer set names; `current_step` equal to
      NUM_EPOCHS; one classification loss per photo batch per epoch; E*B discriminator losses
      of each kind in 4C and none otherwise; one validation accuracy per epoch in 4A and 4C;
      the test accuracy exactly hits / art images, in [0, 1]. */
  lemma PresetCompletes<L>(inputs: Inputs<L>)
    requires ValidInputs(inputs) && Completes(inputs)
    ensures var f := ScriptSpec(inputs);
            var e := inputs.numEpochs;
            var n := NumBatches(LoaderOf(inputs, Photo));
            var da := inputs.mode == Some("4C");
            f.result.Ok? &&
            f.result.value.target == (if inputs.mode == Some("3A") then Art else Sketch) &&
            f.log.currentStep == e &&
            |f.log.lossClass| == e * n &&
            |f.log.lossSource| == |f.log.lossTarget| == (if da then e * n else 0) &&
            |f.log.accuraciesValidation| == (if inputs.mode == Some("3A") then 0 else e) &&
            f.result.value.correct <= inputs.artSize &&
            f.result.value.accuracy == f.result.value.correct as real / inputs.artSize as real &&
            0.0 <= f.result.value.accuracy <= 1.0
  {
    StartupOutcome(inputs.mode, inputs.alpha);
    DocumentedPresets(inputs.alpha);
    var g := Preset(inputs.mode, inputs.alpha).value;
    var d := SelectTarget(g).value;
    var s := SetupFor(inputs, g, d);
    if inputs.mode == Some("4C") && inputs.sketchSize < inputs.batchSize {
      // the photo loader yields no batch, so no label vector is ever built
      SetupValid(inputs, g, d);
      DivUnique(inputs.photoSize, inputs.batchSize, 0, inputs.photoSize);
      assert NumBatches(s.source) == 0;
    } else {
      BatchesCleanFor(inputs, g, d);
    }
    if g.useValidation.value {
      FirstBatch(s.target);
    }
    assert Clean(s);
    CleanRunLists(s, inputs.numEpochs);
    TestAccuracyExact(inputs.test, LoaderOf(inputs, Art));
  }

  /** With the compiled-in constants (MODE '4C', ALPHA 0.25, 30 epochs, batches of 256), an
      art folder that is not empty and a sketch folder of at least 256 images, the run
      completes with domain adaptation and sketch validation: 30 accuracies, and as many
      source as target discriminator losses as classification losses. */
  lemma DefaultExperiment<L>(inputs: Inputs<L>)
    requires ValidInputs(inputs)
    requires inputs.mode == DefaultMode && inputs.alpha == DefaultAlpha
    requires inputs.numEpochs == NumEpochs && inputs.batchSize == BatchSize
    requires inputs.artSize > 0 && inputs.sketchSize >= BatchSize
    ensures var f := ScriptSpec(inputs);
            f.result.Ok? && f.result.value.target == Sketch &&
            |f.log.accuraciesValidation| == 30 &&
            |f.log.lossSource| == |f.log.lossTarget| == |f.log.lossClass| ==
              30 * NumBatches(LoaderOf(inputs, Photo))
  {
    PresetCompletes(inputs);
  }
}
