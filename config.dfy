/** The experiment's compiled-in constants, the MODE dispatcher and the two startup checks
    that run before training: the ALPHA guard and the choice of target loader. */
module Config {
  import opened Runtime

  const BatchSize: nat := 256
  const NumEpochs: nat := 30
  const DefaultMode: Option<string> := Some("4C")
  const DefaultAlpha: Option<real> := Some(0.25)

  /** The four image domains of the benchmark collection. */
  datatype Domain = Photo | Art | Cartoon | Sketch

  /** The globals the dispatcher assigns. `alpha` always exists (it is initialised before
      the dispatcher runs) but may be Python's None. */
  datatype Flags = Flags(
    useDomainAdaptation: Slot<bool>,
    useValidation: Slot<bool>,
    crossDomainValidation: Slot<bool>,
    alpha: Option<real>,
    transferSet: Slot<Option<string>>)

  predicate IsPreset(mode: string) {
    mode == "3A" || mode == "3B" || mode == "4A" || mode == "4C"
  }

  /** The globals after the mode if/elif chain, given MODE and the initial ALPHA. */
  function Preset(mode: Option<string>, alpha: Option<real>): (r: Result<Flags>)
    ensures r.Err? <==> mode.None?
    ensures r.Err? ==> r.failure == SelectModeError
    // exactly the four presets assign the domain-adaptation flag
    ensures r.Ok? ==> (r.value.useDomainAdaptation.Assigned? <==> IsPreset(mode.value))
    ensures r.Ok? ==> (r.value.transferSet.Assigned? <==> IsPreset(mode.value))
    // ALPHA is changed only by clearing it, and only in a mode without domain adaptation
    ensures r.Ok? && r.value.alpha != alpha ==>
              r.value.alpha.None? && r.value.useDomainAdaptation == Assigned(false)
    ensures r.Ok? && r.value.useDomainAdaptation == Assigned(true) ==> r.value.alpha == alpha
    // validation always runs on the sketch domain
    ensures r.Ok? && r.value.useValidation == Assigned(true) ==>
              r.value.transferSet == Assigned(Some("sketch"))
  {
    match mode
    case None => Err(SelectModeError)
    case Some(m) =>
      if m == "3A" then
        Ok(Flags(Assigned(false), Assigned(false), Assigned(false), None, Assigned(None)))
      else if m == "3B" then
        Ok(Flags(Assigned(true), Unassigned, Unassigned, alpha, Assigned(Some("art painting"))))
      else if m == "4A" then
        Ok(Flags(Assigned(false), Assigned(true), Assigned(false), None, Assigned(Some("sketch"))))
      else if m == "4C" then
        Ok(Flags(Assigned(true), Assigned(true), Assigned(true), alpha, Assigned(Some("sketch"))))
      else
        Ok(Flags(Unassigned, Unassigned, Unassigned, alpha, Unassigned))
  }

  /** The if/elif chain as the script runs it: each branch assigns some of the globals,
      which start out unassigned (ALPHA starts at its initial value). */
  method Dispatch(mode: Option<string>, alpha: Option<real>) returns (r: Result<Flags>)
    ensures r == Preset(mode, alpha)
  {
    var useDomainAdaptation: Slot<bool> := Unassigned;
    var useValidation: Slot<bool> := Unassigned;
    var crossDomainValidation: Slot<bool> := Unassigned;
    var alphaNow := alpha;
    var transferSet: Slot<Option<string>> := Unassigned;
    if mode.None? {
      return Err(SelectModeError);
    } else if mode.value == "3A" {
      useDomainAdaptation := Assigned(false);
      crossDomainValidation := Assigned(false);
      useValidation := Assigned(false);
      alphaNow := None;
      transferSet := Assigned(None);
    } else if mode.value == "3B" {
      useDomainAdaptation := Assigned(true);
      transferSet := Assigned(Some("art painting"));
    } else if mode.value == "4A" {
      transferSet := Assigned(Some("sketch"));
      useValidation := Assigned(true);
      useDomainAdaptation := Assigned(false);
      crossDomainValidation := Assigned(false);
      alphaNow := None;
    } else if mode.value == "4C" {
      useValidation := Assigned(true);
      useDomainAdaptation := Assigned(true);
      crossDomainValidation := Assigned(true);
      transferSet := Assigned(Some("sketch"));
    }
    r := Ok(Flags(useDomainAdaptation, useValidation, crossDomainValidation, alphaNow, transferSet));
  }

  /** `if USE_DOMAIN_ADAPTATION and ALPHA == None: raise`. Python's `and` only compares
      ALPHA when the flag is true; reading the flag itself fails when it was never set. */
  function CheckAlpha(g: Flags): (r: Result<()>)
    ensures r == Err(AlphaMissingError) <==>
              g.useDomainAdaptation == Assigned(true) && g.alpha.None?
    ensures r == Err(NameError("USE_DOMAIN_ADAPTATION")) <==> g.useDomainAdaptation.Unassigned?
    ensures r.Ok? <==>
              g.useDomainAdaptation == Assigned(false) ||
              (g.useDomainAdaptation == Assigned(true) && g.alpha.Some?)
  {
    match g.useDomainAdaptation
    case Unassigned => Err(NameError("USE_DOMAIN_ADAPTATION"))
    case Assigned(da) => if da && g.alpha.None? then Err(AlphaMissingError) else Ok(())
  }

  /** The target loader chosen from `transfer_set`; anything other than 'cartoon' or
      'sketch' (None and 'art painting' included) falls back to the art test loader. */
  function SelectTarget(g: Flags): (r: Result<Domain>)
    ensures r.Err? <==> g.transferSet.Unassigned?
    ensures r.Err? ==> r.failure == NameError("transfer_set")
    ensures r == Ok(Cartoon) <==> g.transferSet == Assigned(Some("cartoon"))
    ensures r == Ok(Sketch) <==> g.transferSet == Assigned(Some("sketch"))
    ensures r.Ok? ==> r.value != Photo
  {
    match g.transferSet
    case Unassigned => Err(NameError("transfer_set"))
    case Assigned(t) =>
      if t == Some("cartoon") then Ok(Cartoon)
      else if t == Some("sketch") then Ok(Sketch)
      else Ok(Art)
  }

  /** The documented presets: the flags, ALPHA and transfer set each mode leaves behind. */
  lemma DocumentedPresets(alpha: Option<real>)
    ensures Preset(Some("3A"), alpha) ==
              Ok(Flags(Assigned(false), Assigned(false), Assigned(false), None, Assigned(None)))
    ensures Preset(Some("4A"), alpha) ==
              Ok(Flags(Assigned(false), Assigned(true), Assigned(false), None, Assigned(Some("sketch"))))
    ensures Preset(Some("4C"), alpha) ==
              Ok(Flags(Assigned(true), Assigned(true), Assigned(true), alpha, Assigned(Some("sketch"))))
    ensures Preset(Some("3B"), alpha).Ok?
    ensures var g := Preset(Some("3B"), alpha).value;
              g.useDomainAdaptation == Assigned(true) && g.useValidation.Unassigned? &&
              g.crossDomainValidation.Unassigned? && g.transferSet == Assigned(Some("art painting"))
  {
  }

  /** The outcome of the two startup checks for every mode: no mode stops with
      SelectModeError; an unknown mode stops at the guard's read of the unset flag; the guard
      fires exactly for a domain-adaptation preset with ALPHA None; otherwise a target is
      chosen, so `transfer_set` is never read unset. */
  lemma {:induction false} StartupOutcome(mode: Option<string>, alpha: Option<real>)
    ensures mode.None? ==> Preset(mode, alpha) == Err(SelectModeError)
    ensures mode.Some? && !IsPreset(mode.value) ==>
              CheckAlpha(Preset(mode, alpha).value) == Err(NameError("USE_DOMAIN_ADAPTATION"))
    ensures mode.Some? && IsPreset(mode.value) ==>
              (CheckAlpha(Preset(mode, alpha).value) == Err(AlphaMissingError) <==>
               (mode.value == "3B" || mode.value == "4C") && alpha.None?)
    ensures mode.Some? && IsPreset(mode.value) && CheckAlpha(Preset(mode, alpha).value).Ok? ==>
              SelectTarget(Preset(mode, alpha).value).Ok?
  {
    if mode.Some? {
      var m := mode.value;
      if m == "3A" || m == "3B" || m == "4A" || m == "4C" {
        DocumentedPresets(alpha);
      }
    }
  }

  /** With the compiled-in ALPHA the guard never fires for a preset, and the target for each
      preset is the one its transfer set names. */
  lemma PresetTargets(mode: string)
    requires IsPreset(mode)
    ensures CheckAlpha(Preset(Some(mode), DefaultAlpha).value).Ok?
    ensures SelectTarget(Preset(Some(mode), DefaultAlpha).value) ==
              Ok(if mode == "3A" || mode == "3B" then Art else Sketch)
  {
    StartupOutcome(Some(mode), DefaultAlpha);
  }
}
