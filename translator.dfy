/** The Translator handle: model attachment and the batch translation surface. */
module Translation {
  import opened Types
  import opened Seqs
  import Options
  import opened Rebatch

  datatype Device = CPU | CUDA

  datatype ComputeType = Default | Float | Int8 | Int16

  /** A loaded, shared, read-only model, known here only by the directory it was read from. */
  datatype Model = Model(path: string)

  datatype TranslatorError =
    | NoModel
    | InvalidOptions(reason: Options.OptionsError)
    | InvalidInput(mismatch: RebatchError)

  /**
   * The encoder/decoder collaborator: decode(model, options, batchSource, batchTarget, j) is
   * the result for entry j when the whole batch is decoded together.
   */
  type Decoder<R> = (Model, Options.TranslationOptions, seq<TokenSeq>, seq<TokenSeq>, nat) -> R

  /** One result per entry of a batch. */
  function BatchResults<R>(model: Model, options: Options.TranslationOptions, b: Batch, decode: Decoder<R>): seq<R>
  {
    seq(|b.source|, j requires 0 <= j < |b.source| => decode(model, options, b.source, b.target, j))
  }

  function ResultsOf<R>(model: Model, options: Options.TranslationOptions, batches: seq<Batch>, decode: Decoder<R>)
    : seq<seq<R>>
  {
    seq(|batches|, k requires 0 <= k < |batches| => BatchResults(model, options, batches[k], decode))
  }

  /** The result vector before scattering: every slot holds the empty result. */
  function Unfilled<R>(n: nat, empty: R): (r: seq<R>)
    ensures |r| == n
  {
    seq(n, _ => empty)
  }

  /** One empty prefix per source: translation without a target prefix. */
  function NoPrefixes(n: nat): (r: seq<TokenSeq>)
    ensures |r| == n
  {
    seq(n, _ => [])
  }

  /** Every batch is well formed with respect to the input. */
  predicate AllWellFormed(batches: seq<Batch>, source: seq<TokenSeq>, target: seq<TokenSeq>)
  {
    forall k :: 0 <= k < |batches| ==> WellFormed(batches[k], source, target)
  }

  /** The batches' example positions, read in sequence, are a permutation of 0..n-1. */
  predicate IsPartition(batches: seq<Batch>, n: nat)
  {
    var flat := Flatten<nat>(IndicesOf(batches));
    multiset(flat) == multiset(Iota(n)) && Distinct(flat) && |flat| == n && InRange(n, flat)
  }

  /** The facts about a plan that scattering relies on. */
  lemma PlanFacts(source: seq<TokenSeq>, target: seq<TokenSeq>, options: Options.TranslationOptions)
    requires RebatchWithOptions(source, target, options).Success?
    ensures |source| == |target|
    ensures AllWellFormed(RebatchWithOptions(source, target, options).value, source, target)
    ensures IsPartition(RebatchWithOptions(source, target, options).value, |source|)
  {
    var max := if options.rebatchInput then options.maxBatchSize else 0;
    var bt := if options.rebatchInput then options.batchType else Examples;
    PlanWellFormed(source, target, max, bt);
    PlanPartition(source, target, max, bt);
    IotaBound(Flatten<nat>(IndicesOf(RebatchWithOptions(source, target, options).value)), |source|);
  }

  lemma ResultsShape<R>(model: Model, options: Options.TranslationOptions, batches: seq<Batch>, decode: Decoder<R>,
                        source: seq<TokenSeq>, target: seq<TokenSeq>)
    requires forall k :: 0 <= k < |batches| ==> WellFormed(batches[k], source, target)
    ensures SameShape(IndicesOf(batches), ResultsOf(model, options, batches, decode))
    ensures |Flatten<nat>(IndicesOf(batches))| == |Flatten(ResultsOf(model, options, batches, decode))|
  {
    SameShapeOffset(IndicesOf(batches), ResultsOf(model, options, batches, decode), 0);
  }

  /**
   * run_batch_translation and the translate_batch* calls: check the model, validate options
   * not yet validated, re-batch, decode every batch and put each result back at the
   * position of its example.
   */
  function RunBatchTranslation<R>(model: Option<Model>, options: Options.TranslationOptions,
                                  source: seq<TokenSeq>, targetPrefix: seq<TokenSeq>,
                                  decode: Decoder<R>, empty: R): Result<seq<R>, TranslatorError>
  {
    if model.None? then Failure(NoModel)
    else if !options.validated && Options.Validate(options).Fail? then
      Failure(InvalidOptions(Options.Validate(options).error))
    else
      match RebatchWithOptions(source, targetPrefix, options)
      case Failure(e) => Failure(InvalidInput(e))
      case Success(batches) =>
        PlanFacts(source, targetPrefix, options);
        ResultsShape(model.value, options, batches, decode, source, targetPrefix);
        Success(Scatter(Unfilled(|source|, empty), Flatten<nat>(IndicesOf(batches)),
                        Flatten(ResultsOf(model.value, options, batches, decode))))
  }

  /** Which call fails, with which error, and that a successful call gives one result per input. */
  lemma TranslationOutcome<R>(model: Option<Model>, options: Options.TranslationOptions,
                              source: seq<TokenSeq>, targetPrefix: seq<TokenSeq>, decode: Decoder<R>, empty: R)
    ensures var r := RunBatchTranslation(model, options, source, targetPrefix, decode, empty);
            && (model.None? ==> r == Failure(NoModel))
            && (model.Some? && !options.validated && !Options.IsValid(options) ==>
                  r == Failure(InvalidOptions(Options.Validate(options).error)))
            && (model.Some? && (options.validated || Options.IsValid(options)) && |targetPrefix| != |source| ==>
                  r == Failure(InvalidInput(SizeMismatch(|source|, |targetPrefix|))))
            && (r.Success? <==>
                  model.Some? && (options.validated || Options.IsValid(options)) && |targetPrefix| == |source|)
            && (r.Success? ==> |r.value| == |source|)
  {
  }

  /** A successful call scatters the per-batch results over the positions of the plan. */
  lemma SuccessIsScatter<R>(model: Model, options: Options.TranslationOptions,
                            source: seq<TokenSeq>, targetPrefix: seq<TokenSeq>, decode: Decoder<R>, empty: R)
    requires RunBatchTranslation(Some(model), options, source, targetPrefix, decode, empty).Success?
    ensures RebatchWithOptions(source, targetPrefix, options).Success?
    ensures var batches := RebatchWithOptions(source, targetPrefix, options).value;
            && AllWellFormed(batches, source, targetPrefix)
            && IsPartition(batches, |source|)
            && SameShape(IndicesOf(batches), ResultsOf(model, options, batches, decode))
            && |Flatten<nat>(IndicesOf(batches))| == |Flatten(ResultsOf(model, options, batches, decode))|
            && |RunBatchTranslation(Some(model), options, source, targetPrefix, decode, empty).value| == |source|
            && RunBatchTranslation(Some(model), options, source, targetPrefix, decode, empty).value
               == Scatter(Unfilled(|source|, empty), Flatten<nat>(IndicesOf(batches)),
                          Flatten(ResultsOf(model, options, batches, decode)))
  {
    var batches := RebatchWithOptions(source, targetPrefix, options).value;
    PlanFacts(source, targetPrefix, options);
    ResultsShape(model, options, batches, decode, source, targetPrefix);
  }

  /** The result of entry j of batch k lands at the input position that entry came from. */
  lemma EntriesLandInPlace<R>(model: Model, options: Options.TranslationOptions,
                              source: seq<TokenSeq>, targetPrefix: seq<TokenSeq>, decode: Decoder<R>, empty: R)
    requires RunBatchTranslation(Some(model), options, source, targetPrefix, decode, empty).Success?
    ensures RebatchWithOptions(source, targetPrefix, options).Success?
    ensures var r := RunBatchTranslation(Some(model), options, source, targetPrefix, decode, empty).value;
            var batches := RebatchWithOptions(source, targetPrefix, options).value;
            forall k, j :: 0 <= k < |batches| && 0 <= j < |batches[k].exampleIndex| ==>
              batches[k].exampleIndex[j] < |r| &&
              r[batches[k].exampleIndex[j]] == decode(model, options, batches[k].source, batches[k].target, j)
  {
    var r := RunBatchTranslation(Some(model), options, source, targetPrefix, decode, empty).value;
    var batches := RebatchWithOptions(source, targetPrefix, options).value;
    SuccessIsScatter(model, options, source, targetPrefix, decode, empty);
    var acc := Unfilled(|source|, empty);
    forall k, j | 0 <= k < |batches| && 0 <= j < |batches[k].exampleIndex|
      ensures batches[k].exampleIndex[j] < |r|
      ensures r[batches[k].exampleIndex[j]] == decode(model, options, batches[k].source, batches[k].target, j)
    {
      EntryResult(model, options, source, targetPrefix, batches, decode, acc, k, j);
    }
  }

  /** Result i is the decoding of a batch entry that holds input i, with its source and target prefix. */
  ghost predicate InputAnswered<R>(model: Model, options: Options.TranslationOptions,
                                   source: seq<TokenSeq>, targetPrefix: seq<TokenSeq>, decode: Decoder<R>,
                                   batches: seq<Batch>, r: seq<R>, i: nat)
  {
    exists k, j :: 0 <= k < |batches| && 0 <= j < |batches[k].exampleIndex| &&
      batches[k].exampleIndex[j] == i &&
      j < |batches[k].source| && i < |source| && batches[k].source[j] == source[i] &&
      j < |batches[k].target| && i < |targetPrefix| && batches[k].target[j] == targetPrefix[i] &&
      i < |r| && r[i] == decode(model, options, batches[k].source, batches[k].target, j)
  }

  /** There is one result per input, and each input is answered by its own batch entry. */
  ghost predicate EveryInputAnswered<R>(model: Model, options: Options.TranslationOptions,
                                        source: seq<TokenSeq>, targetPrefix: seq<TokenSeq>, decode: Decoder<R>,
                                        batches: seq<Batch>, r: seq<R>)
  {
    |r| == |source| &&
    forall i: nat :: i < |source| ==> InputAnswered(model, options, source, targetPrefix, decode, batches, r, i)
  }

  /** Results come back in input order, one per input. */
  lemma ResultsInInputOrder<R>(model: Model, options: Options.TranslationOptions,
                               source: seq<TokenSeq>, targetPrefix: seq<TokenSeq>, decode: Decoder<R>, empty: R)
    requires RunBatchTranslation(Some(model), options, source, targetPrefix, decode, empty).Success?
    ensures RebatchWithOptions(source, targetPrefix, options).Success?
    ensures EveryInputAnswered(model, options, source, targetPrefix, decode,
                               RebatchWithOptions(source, targetPrefix, options).value,
                               RunBatchTranslation(Some(model), options, source, targetPrefix, decode, empty).value)
  {
    var r := RunBatchTranslation(Some(model), options, source, targetPrefix, decode, empty).value;
    var batches := RebatchWithOptions(source, targetPrefix, options).value;
    TranslationOutcome(Some(model), options, source, targetPrefix, decode, empty);
    forall i: nat | i < |source|
      ensures InputAnswered(model, options, source, targetPrefix, decode, batches, r, i)
    {
      var k, j := InputResult(model, options, source, targetPrefix, decode, empty, i);
    }
    assert EveryInputAnswered(model, options, source, targetPrefix, decode, batches, r);
  }

  /** The batch entry that holds input i, and the result at position i. */
  lemma InputResult<R>(model: Model, options: Options.TranslationOptions,
                       source: seq<TokenSeq>, targetPrefix: seq<TokenSeq>, decode: Decoder<R>, empty: R, i: nat)
    returns (k: nat, j: nat)
    requires RunBatchTranslation(Some(model), options, source, targetPrefix, decode, empty).Success?
    requires i < |source|
    ensures RebatchWithOptions(source, targetPrefix, options).Success?
    ensures var r := RunBatchTranslation(Some(model), options, source, targetPrefix, decode, empty).value;
            var batches := RebatchWithOptions(source, targetPrefix, options).value;
            && k < |batches| && j < |batches[k].exampleIndex|
            && batches[k].exampleIndex[j] == i
            && batches[k].source[j] == source[i] && batches[k].target[j] == targetPrefix[i]
            && i < |r| && r[i] == decode(model, options, batches[k].source, batches[k].target, j)
  {
    var batches := RebatchWithOptions(source, targetPrefix, options).value;
    SuccessIsScatter(model, options, source, targetPrefix, decode, empty);
    EntriesLandInPlace(model, options, source, targetPrefix, decode, empty);
    k, j := FindEntry(batches, source, targetPrefix, i);
  }

  /** The batch entry that holds input i. */
  lemma FindEntry(batches: seq<Batch>, source: seq<TokenSeq>, targetPrefix: seq<TokenSeq>, i: nat)
    returns (k: nat, j: nat)
    requires AllWellFormed(batches, source, targetPrefix) && IsPartition(batches, |source|)
    requires i < |source|
    ensures k < |batches| && j < |batches[k].exampleIndex|
    ensures batches[k].exampleIndex[j] == i
    ensures batches[k].source[j] == source[i] && batches[k].target[j] == targetPrefix[i]
  {
    var idx := IndicesOf(batches);
    IotaMembers(Flatten<nat>(idx), |source|, i);
    var p :| 0 <= p < |Flatten<nat>(idx)| && Flatten<nat>(idx)[p] == i;
    var kj := Locate(idx, p);
    FlattenAt(idx, kj.0, kj.1);
    k, j := kj.0, kj.1;
    assert WellFormed(batches[k], source, targetPrefix);
  }

  /** The scattered result of one batch entry. */
  lemma EntryResult<R>(model: Model, options: Options.TranslationOptions,
                       source: seq<TokenSeq>, targetPrefix: seq<TokenSeq>, batches: seq<Batch>,
                       decode: Decoder<R>, acc: seq<R>, k: nat, j: nat)
    requires AllWellFormed(batches, source, targetPrefix) && IsPartition(batches, |source|)
    requires |acc| == |source|
    requires k < |batches| && j < |batches[k].exampleIndex|
    ensures SameShape(IndicesOf(batches), ResultsOf(model, options, batches, decode))
    ensures |Flatten<nat>(IndicesOf(batches))| == |Flatten(ResultsOf(model, options, batches, decode))|
    ensures batches[k].exampleIndex[j] < |acc|
    ensures Scatter(acc, Flatten<nat>(IndicesOf(batches)), Flatten(ResultsOf(model, options, batches, decode)))
              [batches[k].exampleIndex[j]]
         == decode(model, options, batches[k].source, batches[k].target, j)
  {
    var idx := IndicesOf(batches);
    var vals := ResultsOf(model, options, batches, decode);
    ResultsShape(model, options, batches, decode, source, targetPrefix);
    assert WellFormed(batches[k], source, targetPrefix);
    assert idx[k][j] == batches[k].exampleIndex[j];
    assert vals[k][j] == decode(model, options, batches[k].source, batches[k].target, j);
    ScatterFlattenAt(acc, idx, vals, k, j);
  }

  /**
   * When the decoder treats every entry on its own (result of entry j depends only on that
   * entry's source and prefix), batching is invisible: result i is the result for input i.
   */
  lemma BatchingIsTransparent<R>(model: Model, options: Options.TranslationOptions,
                                 source: seq<TokenSeq>, targetPrefix: seq<TokenSeq>, decode: Decoder<R>, empty: R,
                                 f: (TokenSeq, TokenSeq) -> R)
    requires forall s: seq<TokenSeq>, t: seq<TokenSeq>, j: nat :: j < |s| && j < |t| ==>
               decode(model, options, s, t, j) == f(s[j], t[j])
    requires RunBatchTranslation(Some(model), options, source, targetPrefix, decode, empty).Success?
    ensures var r := RunBatchTranslation(Some(model), options, source, targetPrefix, decode, empty).value;
            |r| == |source| && |targetPrefix| == |source| &&
            forall i :: 0 <= i < |source| ==> r[i] == f(source[i], targetPrefix[i])
  {
    var r := RunBatchTranslation(Some(model), options, source, targetPrefix, decode, empty).value;
    var batches := RebatchWithOptions(source, targetPrefix, options).value;
    TranslationOutcome(Some(model), options, source, targetPrefix, decode, empty);
    forall i | 0 <= i < |source| ensures r[i] == f(source[i], targetPrefix[i]) {
      var k, j := InputResult(model, options, source, targetPrefix, decode, empty, i);
      PlanFacts(source, targetPrefix, options);
      assert WellFormed(batches[k], source, targetPrefix);
    }
  }

  /** The results of a one-example call are the decoding of that example as a batch of one. */
  lemma SingleTranslation<R>(model: Model, options: Options.TranslationOptions,
                             source: TokenSeq, targetPrefix: TokenSeq, decode: Decoder<R>, empty: R)
    requires RunBatchTranslation(Some(model), options, [source], [targetPrefix], decode, empty).Success?
    ensures RunBatchTranslation(Some(model), options, [source], [targetPrefix], decode, empty).value
            == [decode(model, options, [source], [targetPrefix], 0)]
  {
    var max := if options.rebatchInput then options.maxBatchSize else 0;
    var bt := if options.rebatchInput then options.batchType else Examples;
    SingleExample([source], [targetPrefix], max, bt);
    var batches := [Batch([source], [targetPrefix], [0])];
    assert RebatchWithOptions([source], [targetPrefix], options).value == batches;
    var v := decode(model, options, [source], [targetPrefix], 0);
    assert IndicesOf(batches) == [[0]];
    assert BatchResults(model, options, batches[0], decode) == [v];
    assert ResultsOf(model, options, batches, decode) == [[v]];
    assert Flatten<nat>([[0]]) == [0] + Flatten<nat>([]);
    assert Flatten([[v]]) == [v] + Flatten<R>([]);
    assert Scatter(Unfilled(1, empty), [0], [v]) == Scatter(Unfilled(1, empty), [], [])[0 := v];
  }

  /**
   * The decoding loop of run_batch_translation: decode each batch as a whole and write each
   * of its results at the position of its example.
   */
  method ScatterResults<R>(m: Model, options: Options.TranslationOptions,
                           source: seq<TokenSeq>, targetPrefix: seq<TokenSeq>, batches: seq<Batch>,
                           decode: Decoder<R>, empty: R)
    returns (results: seq<R>)
    requires AllWellFormed(batches, source, targetPrefix) && IsPartition(batches, |source|)
    ensures SameShape(IndicesOf(batches), ResultsOf(m, options, batches, decode))
    ensures |Flatten<nat>(IndicesOf(batches))| == |Flatten(ResultsOf(m, options, batches, decode))|
    ensures results == Scatter(Unfilled(|source|, empty), Flatten<nat>(IndicesOf(batches)),
                               Flatten(ResultsOf(m, options, batches, decode)))
  {
    ResultsShape(m, options, batches, decode, source, targetPrefix);
    ghost var idx := IndicesOf(batches);
    ghost var vals := ResultsOf(m, options, batches, decode);
    ghost var acc := Unfilled(|source|, empty);
    ghost var f, v := Flatten<nat>(idx), Flatten(vals);
    assert |f| == |v| && InRange(|acc|, f);
    ScatterPrefixEnds(acc, f, v);
    var a := new R[|source|](_ => empty);
    assert a[..] == acc;
    assert idx[..0] == [];
    var k := 0;
    while k < |batches|
      invariant k <= |batches|
      invariant Offset(idx, k) <= |f|
      invariant a[..] == ScatterPrefix(acc, f, v, Offset(idx, k))
    {
      var b := batches[k];
      var out := BatchResults(m, options, b, decode);
      OffsetNext(idx, k);
      WriteBatch(a, acc, idx, vals, f, v, k, b.exampleIndex, out);
      k := k + 1;
    }
    assert idx[..|idx|] == idx;
    results := a[..];
  }

  /** Writes the results `out` of batch k at the positions of its examples. */
  method WriteBatch<R>(a: array<R>, ghost acc: seq<R>, ghost idx: seq<seq<nat>>, ghost vals: seq<seq<R>>,
                       ghost f: seq<nat>, ghost v: seq<R>, ghost k: nat, positions: seq<nat>, out: seq<R>)
    modifies a
    requires SameShape(idx, vals) && f == Flatten<nat>(idx) && v == Flatten(vals) && |f| == |v|
    requires forall m :: 0 <= m < |f| ==> f[m] < |acc|
    requires k < |idx| && positions == idx[k] && out == vals[k]
    requires Offset(idx, k + 1) == Offset(idx, k) + |idx[k]| <= |f|
    requires a[..] == ScatterPrefix(acc, f, v, Offset(idx, k))
    ensures a[..] == ScatterPrefix(acc, f, v, Offset(idx, k + 1))
  {
    ghost var o := Offset(idx, k);
    var j := 0;
    while j < |positions|
      invariant j <= |positions|
      invariant a[..] == ScatterPrefix(acc, f, v, o + j)
    {
      ScatterFlattenStep(acc, idx, vals, k, j);
      a[positions[j]] := out[j];
      j := j + 1;
    }
  }

  /**
   * A translator: the model it runs, if one is attached, and the device and compute type
   * the model is placed on.
   */
  class Translator {
    var model: Option<Model>
    var device: Device
    var deviceIndex: int
    var computeType: ComputeType

    /** Translator(model_dir, device, device_index, compute_type), with the model already loaded. */
    constructor (m: Model, device: Device, deviceIndex: int, computeType: ComputeType)
      ensures model == Some(m)
      ensures this.device == device && this.deviceIndex == deviceIndex && this.computeType == computeType
    {
      model := Some(m);
      this.device := device;
      this.deviceIndex := deviceIndex;
      this.computeType := computeType;
    }

    /** Translator(model_dir) with the default arguments: CPU, device 0, default compute type. */
    constructor OnDefaultDevice(m: Model)
      ensures model == Some(m)
      ensures device == CPU && deviceIndex == 0 && computeType == Default
    {
      model := Some(m);
      device := CPU;
      deviceIndex := 0;
      computeType := Default;
    }

    /** The copy constructor: the copy shares the model and its placement. */
    constructor Copy(other: Translator)
      ensures model == other.model
      ensures device == other.device && deviceIndex == other.deviceIndex && computeType == other.computeType
    {
      model := other.model;
      device := other.device;
      deviceIndex := other.deviceIndex;
      computeType := other.computeType;
    }

    predicate HasModel()
      reads this
    {
      model.Some?
    }

    /** assert_has_model: passes exactly when a model is attached. */
    method AssertHasModel() returns (r: Outcome<TranslatorError>)
      ensures r.Pass? <==> HasModel()
      ensures r.Fail? ==> r.error == NoModel
    {
      if model.None? {
        return Fail(NoModel);
      }
      return Pass;
    }

    /** set_model: a new model, placed like the previous one. */
    method SetModel(m: Model)
      modifies this
      ensures model == Some(m)
      ensures device == old(device) && deviceIndex == old(deviceIndex) && computeType == old(computeType)
    {
      model := Some(m);
    }

    /** detach_model: the translator keeps its placement but has no model until the next SetModel. */
    method DetachModel()
      modifies this
      ensures model == None
      ensures device == old(device) && deviceIndex == old(deviceIndex) && computeType == old(computeType)
    {
      model := None;
    }

    /**
     * translate_batch_with_prefix / run_batch_translation: check the model and the options,
     * re-batch, decode each batch as a whole and write each of its results at the position
     * of its example.
     */
    method TranslateBatchWithPrefix<R>(source: seq<TokenSeq>, targetPrefix: seq<TokenSeq>,
                                       options: Options.TranslationOptions, decode: Decoder<R>, empty: R)
      returns (r: Result<seq<R>, TranslatorError>)
      ensures r == RunBatchTranslation(model, options, source, targetPrefix, decode, empty)
    {
      var check := AssertHasModel();
      if check.Fail? {
        return Failure(check.error);
      }
      if !options.validated {
        var v := Options.Validate(options);
        if v.Fail? {
          return Failure(InvalidOptions(v.error));
        }
      }
      var planned: Result<seq<Batch>, RebatchError>;
      if options.rebatchInput {
        planned := RebatchExamples(source, targetPrefix, options.maxBatchSize, options.batchType);
      } else {
        planned := RebatchExamples(source, targetPrefix, 0, Examples);
      }
      if planned.Failure? {
        return Failure(InvalidInput(planned.error));
      }
      var batches := planned.value;
      PlanFacts(source, targetPrefix, options);
      var results := ScatterResults(model.value, options, source, targetPrefix, batches, decode, empty);
      return Success(results);
    }

    /** translate_batch(source, options): no target prefixes. */
    method TranslateBatch<R>(source: seq<TokenSeq>, options: Options.TranslationOptions,
                             decode: Decoder<R>, empty: R)
      returns (r: Result<seq<R>, TranslatorError>)
      ensures r == RunBatchTranslation(model, options, source, NoPrefixes(|source|), decode, empty)
    {
      r := TranslateBatchWithPrefix(source, NoPrefixes(|source|), options, decode, empty);
    }

    /** translate_with_prefix: one example, translated as a batch of one. */
    method TranslateWithPrefix<R>(source: TokenSeq, targetPrefix: TokenSeq,
                                  options: Options.TranslationOptions, decode: Decoder<R>, empty: R)
      returns (r: Result<R, TranslatorError>)
      ensures r.Success? <==> HasModel() && (options.validated || Options.IsValid(options))
      ensures !HasModel() ==> r == Failure(NoModel)
      ensures HasModel() && !options.validated && !Options.IsValid(options) ==>
                r == Failure(InvalidOptions(Options.Validate(options).error))
      ensures r.Success? ==> r.value == decode(model.value, options, [source], [targetPrefix], 0)
    {
      var rs := TranslateBatchWithPrefix([source], [targetPrefix], options, decode, empty);
      TranslationOutcome(model, options, [source], [targetPrefix], decode, empty);
      if rs.Failure? {
        return Failure(rs.error);
      }
      SingleTranslation(model.value, options, source, targetPrefix, decode, empty);
      return Success(rs.value[0]);
    }

    /** translate_batch(tokens): default options, no target prefixes. */
    method TranslateBatchWithDefaults<R>(source: seq<TokenSeq>, decode: Decoder<R>, empty: R)
      returns (r: Result<seq<R>, TranslatorError>)
      ensures r.Success? <==> HasModel()
      ensures !HasModel() ==> r == Failure(NoModel)
      ensures r == RunBatchTranslation(model, Options.Default(), source, NoPrefixes(|source|), decode, empty)
    {
      Options.DefaultIsValid();
      TranslationOutcome(model, Options.Default(), source, NoPrefixes(|source|), decode, empty);
      r := TranslateBatch(source, Options.Default(), decode, empty);
    }

    /** translate(tokens): one example, default options, no target prefix. */
    method TranslateWithDefaults<R>(source: TokenSeq, decode: Decoder<R>, empty: R)
      returns (r: Result<R, TranslatorError>)
      ensures r.Success? <==> HasModel()
      ensures !HasModel() ==> r == Failure(NoModel)
      ensures r.Success? ==> r.value == decode(model.value, Options.Default(), [source], [[]], 0)
    {
      Options.DefaultIsValid();
      r := Translate(source, Options.Default(), decode, empty);
    }

    /** translate(tokens, options): one example, no target prefix. */
    method Translate<R>(source: TokenSeq, options: Options.TranslationOptions, decode: Decoder<R>, empty: R)
      returns (r: Result<R, TranslatorError>)
      ensures r.Success? <==> HasModel() && (options.validated || Options.IsValid(options))
      ensures !HasModel() ==> r == Failure(NoModel)
      ensures r.Success? ==> r.value == decode(model.value, options, [source], [[]], 0)
    {
      r := TranslateWithPrefix(source, [], options, decode, empty);
    }
  }
}
