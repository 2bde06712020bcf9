# CTranslate2 translator core, modelled in Dafny

This project models the translation entry point of CTranslate2, as declared in
`include/ctranslate2/translator.h`. It covers three parts.

- **Request re-batching** (`rebatch_input`, `Batch`). The examples are sorted by source
  length, stably, with ties kept in input order. They are then split into batches bounded
  by `max_batch_size`, which counts examples or source tokens depending on `batch_type`.
  A bound of 0 forwards the whole input as one batch. Each batch records `example_index`,
  the original position of every entry.
- **Decoding options** (`TranslationOptions`). The record holds its documented defaults,
  the private `validated` and `rebatch_input` flags, and the `const` check `validate()`.
- **The `Translator` handle**. This is a class with an optional model, a device, a device
  index and a compute type. `set_model`, `detach_model` and `assert_has_model` act on it.
  The `translate*` calls check the model and the options, re-batch the input, decode every
  batch, and write each result back at the position of its example.

The files are:

- `types.dfy`: token sequences, `BatchType`, and the Option, Result and Outcome types.
- `seqs.dfy`: flattening nested sequences, and scattering values to positions.
- `options.dfy`: the `Options` module.
- `rebatch.dfy`: the `Rebatch` module.
- `translator.dfy`: the `Translation` module.

The encoder and decoder are a function parameter, `decode(model, options, batchSource,
batchTarget, j)`. It gives the result of entry `j` when the whole batch is decoded
together. A translation result is a type parameter `R`. Nothing in the model depends on the
internals of either.

## Model

| member | source | states |
|---|---|---|
| Options.Validate | include/ctranslate2/translator.h:42-72 | validation passes exactly on valid options; a failure names a rule the options break, and no rule checked earlier is broken |
| Options.ViolationReported | include/ctranslate2/translator.h:72 | options that break any rule are rejected, with that rule or one checked before it |
| Options.HypothesisBound | include/ctranslate2/translator.h:55-57 | accepted options keep num_hypotheses within beam_size unless alternatives are returned; otherwise the error is TooManyHypotheses |
| Options.SamplingExcludesBeamSearch | include/ctranslate2/translator.h:46-48 | accepted options never combine top-k sampling (topk != 1) with a beam wider than 1 |
| Options.LengthBoundsExample | include/ctranslate2/translator.h:42-44 | a minimum decoding length above the maximum is rejected as such |
| Options.BeamWithSamplingExample | include/ctranslate2/translator.h:46-48 | beam 4 with top-5 sampling is rejected as sampling with beam search |
| Options.ValidateIgnoresInternalFlags | include/ctranslate2/translator.h:74-77 | the outcome of validation does not depend on the private validated and rebatch_input flags |
| Options.DefaultIsValid | include/ctranslate2/translator.h:17-70 | a default-constructed options value passes validation |
| Rebatch.SortByLength | include/ctranslate2/translator.h:19-21 | sorting keeps exactly the same example positions (same multiset), all of them in range |
| Rebatch.SortSorted | include/ctranslate2/translator.h:19-21 | the sorted positions are in non-decreasing source length, ties in input order |
| Rebatch.Group | include/ctranslate2/translator.h:18-25 | the splitter only emits non-empty batches of in-range positions |
| Rebatch.GroupHead | include/ctranslate2/translator.h:18-21 | a non-empty open batch is the start of the first batch emitted |
| Rebatch.GroupClosedWhenFull | include/ctranslate2/translator.h:18-21 | every emitted batch but the last was closed because the first example of the next batch would take it over max_batch_size |
| Rebatch.GroupFlatten | include/ctranslate2/translator.h:144 | reading the emitted batches in sequence gives back exactly the examples fed to the splitter, in order |
| Rebatch.GroupWithinBudget | include/ctranslate2/translator.h:18-25 | every emitted batch is within max_batch_size in its unit, or is a single example |
| Rebatch.RebatchInput | include/ctranslate2/translator.h:149-153 | fails exactly when the target list does not have one entry per source, reporting both sizes; an empty input gives no batches |
| Rebatch.RebatchWithOptions | include/ctranslate2/translator.h:154-157 | fails exactly on a size mismatch; with the internal rebatch_input flag off the input is forwarded as one batch |
| Rebatch.BuildBatches | include/ctranslate2/translator.h:18-25 | the splitting loop produces the batches the splitting specification describes |
| Rebatch.RebatchExamples | include/ctranslate2/translator.h:149-153 | the procedure returns exactly what rebatch_input specifies, error included |
| Rebatch.ForwardAsIs | include/ctranslate2/translator.h:18-22 | with max_batch_size 0, the plan is one batch of all inputs in order, example_index[i] == i |
| Rebatch.SingleExample | include/ctranslate2/translator.h:18-25 | a single example forms a single batch, whatever the bound |
| Rebatch.PlanWellFormed | include/ctranslate2/translator.h:141-145 | every batch is non-empty, has as many sources, targets and indices, and entry j is the input example example_index[j] |
| Rebatch.PlanFlatten | include/ctranslate2/translator.h:144-148 | the concatenated example indices are 0..n-1 when forwarding, else the length-sorted positions |
| Rebatch.PlanPartition | include/ctranslate2/translator.h:144-148 | the concatenated example indices are a permutation of 0..n-1: no example dropped or repeated |
| Rebatch.PlanWithinBudget | include/ctranslate2/translator.h:18-25 | every batch respects the bound or is one over-long example; counted in examples, no batch exceeds max_batch_size |
| Rebatch.PlanClosedWhenFull | include/ctranslate2/translator.h:18-25 | with a positive bound, each batch but the last plus the first example of the next batch exceeds max_batch_size, so no batch is closed early |
| Rebatch.PlanFullBatches | include/ctranslate2/translator.h:18-21 | counted in examples, every batch but the last holds exactly max_batch_size examples |
| Rebatch.PlanSortedByLength | include/ctranslate2/translator.h:19-21 | with a bound, the batches read in sequence give non-decreasing source lengths |
| Rebatch.LengthSortExample | include/ctranslate2/translator.h:18-21 | sources of lengths 3, 7, 3, 5 in batches of two are batched as [0, 2] and [3, 1] |
| Translation.TranslationOutcome | include/ctranslate2/translator.h:128-133 | the call fails with NoModel without a model, with the validation error on invalid unvalidated options, with the size mismatch otherwise, and succeeds with one result per input in every other case |
| Translation.SuccessIsScatter | include/ctranslate2/translator.h:130-133 | a successful call scatters the decoded batches over the positions of a well-formed partition |
| Translation.EntriesLandInPlace | include/ctranslate2/translator.h:144 | the result of entry j of batch k lands at position example_index[j] |
| Translation.InputResult | include/ctranslate2/translator.h:105-113 | for each input i there is a batch entry holding input i's source and prefix, and result i is that entry's decoding |
| Translation.FindEntry | include/ctranslate2/translator.h:144 | every input position is held by some batch entry with its source and target |
| Translation.ResultsInInputOrder | include/ctranslate2/translator.h:105-113 | one result per input, and result i answers input i |
| Translation.BatchingIsTransparent | include/ctranslate2/translator.h:105-113 | when decoding treats entries independently, result i is exactly the decoding of input i alone, whatever the batching |
| Translation.SingleTranslation | include/ctranslate2/translator.h:95-103 | a one-example call returns the decoding of that example as a batch of one |
| Translation.ScatterResults | include/ctranslate2/translator.h:130-133 | the decoding loop writes every batch's results at their example positions, giving the scatter the specification describes |
| Translation.WriteBatch | include/ctranslate2/translator.h:130-133 | writing one batch advances the result array by exactly that batch's writes |
| Translation.Translator.constructor | include/ctranslate2/translator.h:88-92 | a new translator holds the model and the given device, device index and compute type; it stands for both the model-directory and the shared-model constructor |
| Translation.Translator.OnDefaultDevice | include/ctranslate2/translator.h:88-91 | the default arguments place the model on CPU, device 0, default compute type |
| Translation.Translator.Copy | include/ctranslate2/translator.h:83-93 | a copy shares the model and has the same placement |
| Translation.Translator.AssertHasModel | include/ctranslate2/translator.h:128 | passes exactly when a model is attached, else reports NoModel |
| Translation.Translator.SetModel | include/ctranslate2/translator.h:119-122 | the new model is attached; device, device index and compute type are unchanged |
| Translation.Translator.DetachModel | include/ctranslate2/translator.h:124-125 | no model is attached afterwards; the placement is unchanged, so translation fails until SetModel |
| Translation.Translator.TranslateBatchWithPrefix | include/ctranslate2/translator.h:110-113 | the call returns what the translation specification gives for the current model |
| Translation.Translator.TranslateBatch | include/ctranslate2/translator.h:107-109 | translating a batch without prefixes is translating it with one empty prefix per source |
| Translation.Translator.TranslateBatchWithDefaults | include/ctranslate2/translator.h:105-106 | with default options, the call succeeds exactly when a model is attached |
| Translation.Translator.TranslateWithPrefix | include/ctranslate2/translator.h:100-103 | succeeds exactly with a model and acceptable options, and then returns the decoding of the one example |
| Translation.Translator.Translate | include/ctranslate2/translator.h:97-99 | one example without prefix: succeeds exactly with a model and acceptable options, returning its decoding |
| Translation.Translator.TranslateWithDefaults | include/ctranslate2/translator.h:95-96 | one example with default options: succeeds exactly when a model is attached |

The header declares the operations but not their bodies. Where the header comments leave
a choice open, the model settles it as follows.

- The hypothesis rule is "num_hypotheses <= beam_size". The header comment says "should be
  smaller than". The defaults (beam_size 2, one hypothesis) pass under either reading. A
  strict reading would reject the greedy search the header offers (beam_size set to 1) with
  its default single hypothesis, so the model allows equality.
- Validation checks the rules in a fixed order: decoding lengths, then hypotheses, then
  sampling with beam search, then a zero beam. Validation reports the first broken rule.
  A beam size of 0 is rejected; this rule is not in the header comments.
- The sort is ascending by source length and stable. The header says only "sorted by
  length".
- The splitter closes the current batch when it is non-empty and the next example would take
  it above the bound. An example larger than the bound on its own therefore forms a batch of
  one.
- When the private `rebatch_input` flag is false, the input is forwarded as one batch.
- A target prefix list whose length differs from the source list is reported as an error.
  The model does not require it of callers.
- Options already marked `validated` are not validated again.

## Left out

- TranslatorPool and the Python bindings: worker threads, queues and futures are not part of
  this model.
- Encoder and decoder numerics, beam and greedy search, and the length and coverage penalties
  are the abstract `decode` parameter.
- `decode` is a total, deterministic function. A decoder that throws, which would abort the
  call for its sub-batch, is not modelled. Random sampling (sampling_topk and
  sampling_temperature) is modelled as one fixed choice of the sampled tokens.
- Translation.TranslationOutcome: its success direction ("succeeds in every other case")
  holds only because the decoder cannot fail. The same holds for
  Translation.RunBatchTranslation and the success cases of the `Translate*` methods.
- Translation.BatchingIsTransparent: it compares results for one fixed `decode`, so it says
  nothing about two sampling runs giving the same tokens.
- The float options (length_penalty, coverage_penalty, prefix_bias_beta,
  sampling_temperature) are carried as `real` and never reasoned about.
- Model loading (model directory, ModelReader, model factory, vocabulary map): constructors
  and SetModel take an already loaded `Model` value. The three `set_model` overloads and the
  two model constructors therefore share one member each.
- `TranslationResult` internals: results are the type parameter `R`, with `empty` as the
  initial value of the result slots.
- `size_t` fields are `nat`, with no wrap-around.
- The `device()`, `device_index()` and `compute_type()` accessors are the class fields read
  directly.
- Translation.Translator.constructor: the model directory is assumed to load; a loading
  failure is not modelled. The shared-model constructor (`Translator(model)`) maps to it too.
  There the placement is whatever the caller passes; the model does not carry the loaded
  model's own device, device index and compute type.
