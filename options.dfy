/** Decoding options (TranslationOptions): fields, documented defaults and validation. */
module Options {
  import opened Types

  /**
   * The decoding configuration. Sizes are `size_t` in the source and `nat` here; the
   * floating-point options are carried as `real` and never reasoned about.
   * `validated` and `rebatchInput` are the private internal flags.
   */
  datatype TranslationOptions = TranslationOptions(
    maxBatchSize: nat,
    batchType: BatchType,
    beamSize: nat,
    lengthPenalty: real,
    coveragePenalty: real,
    prefixBiasBeta: real,
    maxDecodingLength: nat,
    minDecodingLength: nat,
    samplingTopk: nat,
    samplingTemperature: real,
    useVmap: bool,
    numHypotheses: nat,
    returnScores: bool,
    returnAttention: bool,
    returnAlternatives: bool,
    replaceUnknowns: bool,
    validated: bool,
    rebatchInput: bool)

  /** A default-constructed options value. */
  function Default(): TranslationOptions
  {
    TranslationOptions(
      maxBatchSize := 0,
      batchType := Examples,
      beamSize := 2,
      lengthPenalty := 0.0,
      coveragePenalty := 0.0,
      prefixBiasBeta := 0.0,
      maxDecodingLength := 250,
      minDecodingLength := 1,
      samplingTopk := 1,
      samplingTemperature := 1.0,
      useVmap := false,
      numHypotheses := 1,
      returnScores := true,
      returnAttention := false,
      returnAlternatives := false,
      replaceUnknowns := false,
      validated := false,
      rebatchInput := true)
  }

  /** The configuration errors validation reports, in the order they are checked. */
  datatype OptionsError =
    | MinLengthExceedsMax
    | TooManyHypotheses
    | SamplingWithBeamSearch
    | ZeroBeamSize

  /** The position of each rule in the checking order. */
  function Rank(e: OptionsError): nat
  {
    match e
    case MinLengthExceedsMax => 0
    case TooManyHypotheses => 1
    case SamplingWithBeamSearch => 2
    case ZeroBeamSize => 3
  }

  /** The documented rule that error `e` names is broken by `o`. */
  predicate Violates(o: TranslationOptions, e: OptionsError)
  {
    match e
    case MinLengthExceedsMax => o.maxDecodingLength < o.minDecodingLength
    case TooManyHypotheses => !o.returnAlternatives && o.beamSize < o.numHypotheses
    case SamplingWithBeamSearch => 1 < o.beamSize && o.samplingTopk != 1
    case ZeroBeamSize => o.beamSize < 1
  }

  /** The documented constraints on a usable configuration. */
  predicate IsValid(o: TranslationOptions)
  {
    && o.minDecodingLength <= o.maxDecodingLength
    && (o.returnAlternatives || o.numHypotheses <= o.beamSize)
    && (o.beamSize > 1 ==> o.samplingTopk == 1)
    && o.beamSize >= 1
  }

  /**
   * validate(): a const check that passes exactly on valid options and otherwise
   * reports the first rule, in checking order, that the options break.
   */
  function Validate(o: TranslationOptions): (r: Outcome<OptionsError>)
    ensures r.Pass? <==> IsValid(o)
    ensures r.Fail? ==> Violates(o, r.error)
    ensures r.Fail? ==> forall e :: Rank(e) < Rank(r.error) ==> !Violates(o, e)
  {
    if o.minDecodingLength > o.maxDecodingLength then Fail(MinLengthExceedsMax)
    else if o.numHypotheses > o.beamSize && !o.returnAlternatives then Fail(TooManyHypotheses)
    else if o.samplingTopk != 1 && o.beamSize > 1 then Fail(SamplingWithBeamSearch)
    else if o.beamSize == 0 then Fail(ZeroBeamSize)
    else Pass
  }

  /** Every configuration error is reported by validation of some options, and only when its rule is broken. */
  lemma ViolationReported(o: TranslationOptions, e: OptionsError)
    requires Violates(o, e)
    ensures Validate(o).Fail? && Rank(Validate(o).error) <= Rank(e)
  {
  }

  /** The hypothesis bound: more hypotheses than beams is rejected unless alternatives are returned. */
  lemma HypothesisBound(o: TranslationOptions)
    ensures Validate(o).Pass? ==> o.returnAlternatives || o.numHypotheses <= o.beamSize
    ensures o.numHypotheses > o.beamSize && !o.returnAlternatives && o.minDecodingLength <= o.maxDecodingLength
            ==> Validate(o) == Fail(TooManyHypotheses)
  {
  }

  /** Top-k sampling and beam search exclude each other. */
  lemma SamplingExcludesBeamSearch(o: TranslationOptions)
    ensures Validate(o).Pass? ==> o.beamSize == 1 || o.samplingTopk == 1
  {
  }

  /** The outcome of validation does not depend on the internal flags, so marking options as validated keeps it. */
  lemma ValidateIgnoresInternalFlags(o: TranslationOptions, validated: bool, rebatchInput: bool)
    ensures Validate(o.(validated := validated, rebatchInput := rebatchInput)) == Validate(o)
  {
  }

  /** The default configuration is valid. */
  lemma DefaultIsValid()
    ensures Validate(Default()) == Pass
  {
  }

  /** A minimum decoding length of 5 with a maximum of 3 is rejected. */
  lemma LengthBoundsExample()
    ensures Validate(Default().(minDecodingLength := 5, maxDecodingLength := 3)) == Fail(MinLengthExceedsMax)
  {
  }

  /** A beam of 4 with top-5 sampling is rejected. */
  lemma BeamWithSamplingExample()
    ensures Validate(Default().(beamSize := 4, samplingTopk := 5)) == Fail(SamplingWithBeamSearch)
  {
  }
}
