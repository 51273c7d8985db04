# odin core, modelled in Dafny

This project models the deterministic core of the `odin` toolkit. That
toolkit is a TensorFlow library for variational autoencoders and speech
features. The model covers five components, one or two Dafny modules each:

- **Feature-dictionary pipeline** (`features.dfy`, module `Features`).
  - `Extractor.transform` merges an extractor's output with the incoming features. It drops `None` values, rejects upper-case names and never lets an old feature replace a new one.
  - The name selector `_check_feat_name` is modelled as `Features.Selects`.
  - `DeltaExtractor.__init__` validates its arguments.
  - `EqualizeShape0` trims every selected feature to the shortest selected length, keeping the centre.
- **Training schedule** (`early_stop.dfy` and `training.dfy`).
  - `Trainer.early_stop` decides over a loss history. It combines Prechelt's generalisation loss with a patience rule and a progression rule.
  - `validate_optimize` checks the optimize function's argument names.
  - `add_trainable_weights` appends only the variables not already present.
  - `Trainer.prepare` maps its parallelism arguments.
  - `Trainer.fit` runs the `train` loop as a state machine: a counter, a validation and callback cadence, a terminate signal and a `max_iter` cut-off.
- **Sequential network plans** (`network_args.dfy` and `networks.dfy`).
  - Argument broadcasting (`_as_arg_tuples`) and the rank check (`_rank_and_input_shape`).
  - The layer list that `DenseNetwork`, `ConvNetwork` and `DeconvNetwork` build, as a list of layer descriptors.
  - The argument rewriting and memoisation of the two `transpose` methods.
- **Hierarchical VAE bookkeeping** (`hierarchical.dfy`, module `Hierarchical`).
  - The structure and ordering logic of `StackedVAE`, `LadderVAE`, `UnetVAE` and `PUnetVAE`, and `_prepare_encoder_decoder`.
  - Networks, layers and distributions are opaque symbolic terms. A computed value is the term that records how it was computed.
- **Dataset naming and fetching** (`fuel.dfy`, module `Fuel`).
  - The `DataLoader` name, path and link rules, and the argument checks of `unzip_folder` and `load_glove`.
  - The reuse, override and download decision of `get_dataset`, over an abstract disk state.

Python exceptions are modelled as `Common.Result` values, so every error
path is a result and not a precondition. Integers are unbounded; the
modelled code uses no fixed-width arithmetic. The loss history is a sequence of reals with
explicit `NaN`/`Inf` cases.

Parameters stand for the parts that cannot be seen:
- the per-batch losses of `optimize`, the validation losses and the callback in `fit`;
- the `_transform` result of an extractor;
- whether a callable is pickle-able;
- the start layers and output channel that `ConvNetwork.transpose` infers from a built Keras model;
- the identity `id(self)` of a network;
- the state of the disk.

## Model

| member | source | states |
|---|---|---|
| Common.Lower | odin/preprocessing/base.py:126 | lower-casing keeps the length, lowers every character, and leaves no upper-case letter |
| Common.NatToString | odin/networks/sequential_networks.py:129 | the `%d` rendering of a natural number is a non-empty string of decimal digits, with two or more digits exactly from 10 on |
| Common.NatToStringInjective | odin/networks/sequential_networks.py:129 | distinct numbers render as distinct strings |
| Common.Reverse | odin/networks/sequential_networks.py:146 | `[::-1]` keeps the length and puts entry `n-1-i` at position `i` |
| Common.ReverseInvolution | odin/networks/sequential_networks.py:146 | reversing twice gives back the tuple |
| Features.Transform | odin/preprocessing/base.py:39-62 | a mapping result is accepted iff no new or old name has an upper-case letter, else RuntimeError; the merged keys are the non-`None` new names plus the old names; new features keep their values; old features fill only names the result does not hold; a non-mapping result replaces the input |
| Features.TransformKeepsCompleteResult | odin/preprocessing/base.py:53-61 | a result that already holds every old name, with no `None` values, comes back unchanged: old features never override new ones |
| Features.Selects | odin/preprocessing/base.py:68-73 | no selector takes every name; a collection of names takes a name iff it occurs at some position of the collection |
| Features.NewDeltaExtractor | odin/preprocessing/base.py:78-92 | construction succeeds iff the width is odd and at least 3 and the order is not negative; otherwise ValueError; the stored width, order and axis are the given ones |
| Features.NewEqualizeShape0 | odin/preprocessing/base.py:118-127 | no selector selects everything; a callable is kept iff it is pickle-able, else ValueError; names are kept in order, each lower-cased |
| Features.EqualizeSelector | odin/preprocessing/base.py:118-127 | the stored selector of an `EqualizeShape0` takes every feature when none was given, defers to the callable, and otherwise takes a feature iff its name is one of the given names lower-cased, so a name with an upper-case letter is never taken |
| Features.MinimumExists | odin/preprocessing/base.py:132-134 | a non-empty set of lengths has a least element, so `min` is defined whenever something is selected |
| Features.MinOf | odin/preprocessing/base.py:132-134 | `min` is a member of the set and a lower bound of it |
| Features.SelectedLengths | odin/preprocessing/base.py:132-134 | the lengths are exactly those of the selected features; there are none iff nothing is selected |
| Features.Trim | odin/preprocessing/base.py:139-144 | the trimmed feature has the target length, is a contiguous window, and the front cut is at most the back cut, which is at most the front cut plus one |
| Features.EqualizeFeature | odin/preprocessing/base.py:136-145 | an unselected feature is kept; a selected one becomes its centred window of the common length |
| Features.EqualizeAllMeetsSpec | odin/preprocessing/base.py:129-146 | with the minimum as common length, the loop meets `EqualizedFrom`: selected features share one length, which is that of the shortest selected feature, each is the centred window of its original, and unselected features are untouched |
| Features.Equalize | odin/preprocessing/base.py:129-146 | a mapping with no selected feature raises ValueError (min of nothing); otherwise the result satisfies `EqualizedFrom`; a non-mapping passes through |
| Features.EqualLengthsAreFixed | odin/preprocessing/base.py:129-146 | a mapping whose selected features already share one length is returned unchanged |
| Features.EqualizeIdempotent | odin/preprocessing/base.py:129-146 | equalising twice equals equalising once |
| Features.EqualizePipeline | odin/preprocessing/base.py:39-62 | running `EqualizeShape0` through `transform` returns the equalised mapping itself, since it already holds every old name |
| EarlyStop.BestLoss | odin/backend/keras_helpers.py:320-321 | the best earlier loss is positive, a lower bound of every earlier loss, and one of them |
| EarlyStop.MinIsLowerBound | odin/backend/keras_helpers.py:321 | `np.min` is at most every entry |
| EarlyStop.MinIsMember | odin/backend/keras_helpers.py:321 | `np.min` is one of the entries |
| EarlyStop.WindowValues | odin/backend/keras_helpers.py:338 | `losses[-k:]` has `min(k, len)` entries, the last ones of the history, all positive |
| EarlyStop.MinIsPositive | odin/backend/keras_helpers.py:340 | the minimum of positive losses is positive, so the progression's division is defined |
| EarlyStop.Decide | odin/backend/keras_helpers.py:313-349 | an empty history gives no signal; a NaN or Inf last loss terminates when asked; the warm-up gives BEST; past the warm-up, an exceeded patience terminates; without `terminate_on_nan` and with no patience stop, a NaN last loss gives no signal and an Inf one terminates iff `progress_length <= 1`; BEST otherwise only for a last loss no worse than every earlier one; a termination past the warm-up comes from the patience rule or from `GL / PG >= threshold` with positive `GL` |
| EarlyStop.DivisionOrder | odin/backend/keras_helpers.py:330-331 | the generalisation loss is at most 0 iff the last loss is at most the best earlier loss |
| EarlyStop.NewMinimumIsBest | odin/backend/keras_helpers.py:330-335 | a finite last loss that matches or beats every earlier loss is reported BEST, for a positive threshold |
| EarlyStop.SumAtLeastLengthTimesBound | odin/backend/keras_helpers.py:340 | `sum(L) >= len(L) * m` for any lower bound `m` of `L` |
| EarlyStop.ProgressionNonNegative | odin/backend/keras_helpers.py:337-342 | once at least `k` losses exist, the progression over the last `k` is not negative |
| EarlyStop.ProgressionValueNonNegative | odin/backend/keras_helpers.py:339-340 | `10 * (total / (k * least) - 1)` is not negative when `total >= k * least` |
| EarlyStop.GeneralizationRule | odin/backend/keras_helpers.py:329-349 | past the warm-up, with no patience stop and positive `GL`, the result is TERMINATE iff `PG` is 0 or `GL / PG` reaches the threshold, and no signal otherwise |
| EarlyStop.TerminationMonotoneInThreshold | odin/backend/keras_helpers.py:323-349 | lowering the threshold never withdraws a termination |
| Training.ValidateOptimize | odin/backend/keras_helpers.py:352-364 | accepted iff `tape` is a parameter and every parameter after the first is a template name; otherwise AssertionError; the names are returned unchanged |
| Training.StepKeywords | odin/backend/keras_helpers.py:527-537 | the call passes `tape` always, plus `n_iter` and `training` exactly when declared |
| Training.BindCall | odin/backend/keras_helpers.py:535 | binding `f(batch, **kw)` succeeds iff no keyword names the first parameter, every keyword names a parameter and every later parameter gets a keyword; otherwise TypeError |
| Training.StepCall | odin/backend/keras_helpers.py:527-537 | a function without parameters cannot take the batch (TypeError); otherwise the call binds exactly as `BindCall` says |
| Training.ValidatedCallCanFail | odin/backend/keras_helpers.py:352-364 | `['tape']` passes the check, yet the first call of `step` raises TypeError |
| Training.ValidateOptimizeIntended | odin/backend/keras_helpers.py:352-364 | accepted iff the first parameter exists and is no template name, `tape` is among the rest and every later parameter is a template name |
| Training.IntendedValidationMatchesCall | odin/backend/keras_helpers.py:524-537 | the corrected check accepts exactly what the original check accepts and the call binds; then the keywords passed are exactly the later parameters |
| Training.Missing | odin/backend/keras_helpers.py:54 | at most as many variables as given; each kept one is given and not yet a weight, and every given one not yet a weight is kept |
| Training.MissingIsFilter | odin/backend/keras_helpers.py:54 | the kept variables are a subsequence of `vars` (order kept) holding every occurrence of a variable not yet a weight, as often as given, and none of the others |
| Training.AddTrainableWeights | odin/backend/keras_helpers.py:45-57 | the old weights stay as a prefix; every given variable ends up present; nothing else is added; no appended entry was already a weight; the appended part keeps the order of `vars` and holds each new variable as often as it was given |
| Training.AddTrainableWeightsIdempotent | odin/backend/keras_helpers.py:54-55 | adding the same variables again changes nothing |
| Training.MissingOfPresent | odin/backend/keras_helpers.py:54 | variables that are all weights already add nothing |
| Training.MissingDistinct | odin/backend/keras_helpers.py:54 | filtering keeps distinct variables distinct |
| Training.AddTrainableWeightsDistinct | odin/backend/keras_helpers.py:54-55 | weights stay free of duplicates when the given variables are |
| Training.RepeatedVariableIsAddedTwice | odin/backend/keras_helpers.py:54-55 | the no-duplicates promise needs distinct variables: a new variable given twice is appended twice |
| Training.ParallelCalls | odin/backend/keras_helpers.py:424-429 | 0 means sequential, -1 means AUTOTUNE, any other value that many workers |
| Training.DueRoundsExact | odin/backend/keras_helpers.py:586 | the listed counter values are exactly the multiples of the frequency in range, ascending |
| Training.DueRoundsCount | odin/backend/keras_helpers.py:586 | with a positive frequency, validation runs once per multiple the counter passes |
| Training.ValidLossesAppend | odin/backend/keras_helpers.py:587-593 | the validation losses of consecutive stretches concatenate |
| Training.Fit | odin/backend/keras_helpers.py:524-634 | the check as written raises AssertionError; a function it accepts but whose call cannot bind raises TypeError iff some validation or training step runs (there is a batch, and the first round is not a due round without a validation set whose callback stops); under the corrected check it never fails; on success the counter rose once per step, plus once for the round a callback ended, with one training loss per step and one validation loss per due counter value, and everything `TrainLoop` states holds |
| Training.TrainLoop | odin/backend/keras_helpers.py:578-634 | at most one step per batch and at most `max_iter` steps; a run no callback stops ends in the state before its next round (`Before`: the counter advanced once per step, one training loss per step computed with that step's counter, one validation loss per due counter value); a callback stop happens before a batch, at a due counter value whose callback said TERMINATE, and leaves the state that callback saw (`Snapshot`); every earlier due round's callback, shown the state of that moment, said something other than TERMINATE; an unbindable call raises TypeError at its first use |
| NetworkArgs.Broadcast | odin/networks/sequential_networks.py:22 | accepted iff the tuple has length 1 or `n`, otherwise ValueError; a 1-tuple is repeated `n` times and an `n`-tuple is kept |
| NetworkArgs.BroadcastIdempotent | odin/networks/sequential_networks.py:26-29 | a broadcast tuple broadcasts to itself, so stored tuples can be passed back to a constructor |
| NetworkArgs.BroadcastReversed | odin/networks/sequential_networks.py:272-275 | a reversed per-layer tuple is accepted unchanged |
| NetworkArgs.AsArgTuples | odin/networks/sequential_networks.py:20-23 | the layer count is the reference's length; the call succeeds iff every other argument broadcasts to it; the reference comes first, then each argument broadcast |
| NetworkArgs.AsArgTuplesUniformLength | odin/networks/sequential_networks.py:20-23 | every returned tuple has the layer count as its length |
| NetworkArgs.RankAndInputShape | odin/networks/sequential_networks.py:32-45 | ValueError iff neither is given or a given rank disagrees with `len(input_shape) - 1`; a given rank is kept, a missing one is derived from the shape |
| NetworkArgs.RankAndInputShapeStable | odin/networks/sequential_networks.py:32-45 | reconciling the result again changes nothing |
| Networks.Defaults | odin/networks/sequential_networks.py:80-99 | every class forwards its kernel constraint and regularizer; the convolutional classes forward kernel size and strides; only the transposed one has output padding |
| Networks.OptionKeysNested | odin/networks/sequential_networks.py:344-366 | each class accepts the forwarded keywords of the class before it, and `nlayers` is no keyword of the dense class |
| Networks.BroadcastAll | odin/networks/sequential_networks.py:100-107 | every forwarded keyword is broadcast to the layer count, or ValueError |
| Networks.CoreKindFor | odin/networks/sequential_networks.py:229-234 | rank 1, 2 or 3 selects `Conv1D`, `Conv2D` or `Conv3D`; the transposed class refuses rank 3 with NotImplementedError; any other rank fails with UnboundLocalError exactly when a layer is built |
| Networks.Prepare | odin/networks/sequential_networks.py:100-107 | an unknown keyword is a TypeError; a bad rank is a ValueError; on success every per-layer tuple is the broadcast argument, one entry per layer |
| Networks.BiasAsWrittenNeverSet | odin/networks/sequential_networks.py:121 | inside the loop the tuple is never empty, so no core layer ever gets a bias |
| Networks.BiasAsWrittenCounterexample | odin/networks/sequential_networks.py:121 | one layer, no batch normalisation, bias requested: the code gives no bias, the intended flag gives one |
| Networks.BiasIntended | odin/networks/sequential_networks.py:121 | a layer has a bias iff it asks for one and has no batch normalisation |
| Networks.BuildBias | odin/networks/sequential_networks.py:116-131 | each core layer of a built network has a bias iff its `use_bias` entry is set and its `batchnorm` entry is not |
| Networks.LayerNameInjective | odin/networks/sequential_networks.py:129 | distinct layer indices give distinct `Layer%d` names |
| Networks.RateDropout | odin/networks/sequential_networks.py:114-115 | a dropout layer is added iff the rate is strictly between 0 and 1, and then with that rate |
| Networks.BlockTail | odin/networks/sequential_networks.py:130-134 | what follows a core layer holds no core layer, and any dropout there has a positive rate |
| Networks.Prefix | odin/networks/sequential_networks.py:110-115 | the layers before the first core layer hold no core layer, and their dropout rate is strictly between 0 and 1 |
| Networks.BlockTailContents | odin/networks/sequential_networks.py:130-134 | after core layer `i` comes batch normalisation iff `batchnorm[i]`, always its activation, and a dropout iff its rate is positive and the layer is not the last, with that rate |
| Networks.PrefixContents | odin/networks/sequential_networks.py:110-115 | an input layer comes first iff an input shape is given, with that shape; a flatten layer appears iff the network is dense and `flatten` is set; an input dropout appears iff its rate is strictly between 0 and 1, with that rate |
| Networks.Sequential | odin/networks/sequential_networks.py:53-57 | the layer list is the start layers, then the network's layers, then the extra layers, `None` counting as empty |
| Networks.Assemble | odin/networks/sequential_networks.py:137-140 | the network keeps its class and name and wraps its own layers between the caller's start and extra layers |
| Networks.Build | odin/networks/sequential_networks.py:80-140 | construction fails exactly when argument preparation does, with the same error; the stored widths and rank are the resolved ones |
| Networks.CoresOfBlocks | odin/networks/sequential_networks.py:116-136 | the blocks from index `i` on hold exactly the core layers `i`, `i+1`, ... in order |
| Networks.BodyCores | odin/networks/sequential_networks.py:109-136 | the network's own layers hold exactly one core layer per width, in order |
| Networks.BuildCores | odin/networks/sequential_networks.py:116-129 | one core layer per entry of `units`/`filters`, in order, with that width, named `Layer0`, `Layer1`, ..., all names distinct |
| Networks.BuildWidths | odin/networks/sequential_networks.py:116-119 | the core layer widths are the `units`/`filters` tuple |
| Networks.BuildCoreKinds | odin/networks/sequential_networks.py:229-234 | dense networks build `Dense` layers; convolutional ones the `Conv{1,2,3}D` of the rank; transposed ones the `Conv{1,2}DTranspose` of the rank |
| Networks.DeconvRejectsRank3 | odin/networks/sequential_networks.py:387-388 | `DeconvNetwork` never accepts rank 3 |
| Networks.ConvRejectsOtherRanks | odin/networks/sequential_networks.py:229-236 | a convolutional network with layers and a rank other than 1, 2 or 3 is never built |
| Networks.BuildDropoutsPositive | odin/networks/sequential_networks.py:109-136 | every dropout layer the network emits has a positive rate |
| Networks.BuildEndsWithActivation | odin/networks/sequential_networks.py:132-136 | without output dropout, a network with layers ends with the last layer's activation: the last layer gets no layer dropout |
| Networks.BuildNormCount | odin/networks/sequential_networks.py:130-131 | there is one batch-normalisation layer per set `batchnorm` entry |
| Networks.BuildGroups | odin/networks/sequential_networks.py:109-136 | cutting a built network's own layers at its core layers gives one group per width; group `i` holds batch normalisation iff `batchnorm[i]` and its activation; its dropouts are the layer dropout, present iff positive, for all but the last layer, and the output dropout, present iff strictly between 0 and 1, for the last |
| Networks.StoredTuples | odin/networks/sequential_networks.py:26-29 | the stored arguments hold the broadcast tuples, one entry per layer, and the given dropouts and flatten flag |
| Networks.ReversedWidths | odin/networks/sequential_networks.py:146 | networks built from reversed width tuples have reversed core widths |
| Networks.DenseTransposeCalls | odin/networks/sequential_networks.py:145-153 | on a network not yet transposed, `transpose` is the constructor call on the rewritten arguments |
| Networks.PrepareSucceeds | odin/networks/sequential_networks.py:100-107 | known keywords, an accepted rank, uniform tuple lengths and a bound layer class make construction succeed |
| Networks.KindDecides | odin/networks/sequential_networks.py:229-234 | once the keywords, the rank and the lengths are accepted, the layer class alone decides construction and its error is the constructor's error |
| Networks.DenseTransposeReverses | odin/networks/sequential_networks.py:142-154 | the transpose of a dense network succeeds, has the core widths reversed, never flattens and takes the new input shape |
| Networks.DenseTranspose | odin/networks/sequential_networks.py:142-154 | a memoised network is returned as stored, whatever the arguments; a new result is memoised and named `<name>_transpose`; a failure leaves the memo alone |
| Networks.BuildCoreOptions | odin/networks/sequential_networks.py:117-129 | each core layer carries, for every forwarded keyword, its entry of that keyword's broadcast tuple |
| Networks.CoresOptionFixed | odin/networks/sequential_networks.py:117-129 | a keyword given as one value reaches every core layer as that value |
| Networks.DenseTransposeTied | odin/networks/sequential_networks.py:150-152 | with tied weights no core layer of the transpose keeps a kernel constraint or regularizer |
| Networks.DenseTransposeTwice | odin/networks/sequential_networks.py:142-154 | transposing the transpose gives back the original core widths |
| Networks.DenseTransposeAsWritten | odin/networks/sequential_networks.py:142-153 | the transpose as written: memo hits are returned as stored, and a failure leaves the memo alone |
| Networks.DenseTransposeAsWrittenFails | odin/networks/sequential_networks.py:142-153 | as written, a network not yet transposed is never transposed: the stored `nlayers` keyword is a TypeError |
| Networks.ReverseArg | odin/networks/sequential_networks.py:272-275 | a tuple-valued argument is reversed and a single value is kept |
| Networks.ExtraProjection | odin/networks/sequential_networks.py:298-313 | a projection is added only when the input channel count differs from the first filter count, as a rank-1 or rank-2 transposed convolution to that count; rank 3 raises NotImplementedError; no filters at all is an IndexError |
| Networks.ConvTranspose | odin/networks/sequential_networks.py:266-338 | tied weights raise NotImplementedError; a memoised network is returned as stored; a new result is a `DeconvNetwork` and is memoised; a failure leaves the memo alone |
| Networks.ConvTransposeCalls | odin/networks/sequential_networks.py:298-336 | on a network not yet transposed, `transpose` is the extra-projection check followed by the `DeconvNetwork` call on the reversed arguments |
| Networks.ConvTransposeArgsBuild | odin/networks/sequential_networks.py:315-336 | the reversed arguments of a rank-1 or rank-2 network build a `DeconvNetwork` with the core widths reversed |
| Networks.ConvTransposeReverses | odin/networks/sequential_networks.py:266-338 | the transpose of a rank-1 or rank-2 network is a `DeconvNetwork` with the core widths reversed, between the start layers and the extra projection |
| Networks.TransposedTuples | odin/networks/sequential_networks.py:272-275 | the transpose's `use_bias` and `batchnorm` tuples are the original ones reversed |
| Networks.TransposedOptions | odin/networks/sequential_networks.py:272-275 | every forwarded tuple of the transpose is the original one reversed, and output padding is `None` for every layer |
| Networks.ConvTransposeMirrorsBias | odin/networks/sequential_networks.py:272-275 | core layer `i` of the transpose has the bias of core layer `n-1-i` of the original |
| Networks.ConvTransposeMirrorsOptions | odin/networks/sequential_networks.py:272-275 | every forwarded setting of core layer `i` of the transpose is that of core layer `n-1-i` of the original |
| Networks.TransposeArgsShaped | odin/networks/sequential_networks.py:272-275 | the reversed arguments pass the keyword, rank and tuple-length checks of `DeconvNetwork`, with the widths reversed |
| Networks.ConvTransposeArgsRank3 | odin/networks/sequential_networks.py:387-388 | the reversed arguments of a rank-3 network are refused with NotImplementedError |
| Networks.ConvTransposeRank3 | odin/networks/sequential_networks.py:298-304 | transposing a rank-3 network fails with NotImplementedError and memoises nothing |
| Hierarchical.IndexedInjective | odin/bay/vi/autoencoder/hierarchical_vae.py:120-130 | names `f'{prefix}{i}'` with one prefix and distinct indices are distinct |
| Hierarchical.StackedInit | odin/bay/vi/autoencoder/hierarchical_vae.py:76-130 | construction succeeds iff the hidden and latent lists have one length, else AssertionError; every ladder list has that length |
| Hierarchical.StackedLadders | odin/bay/vi/autoencoder/hierarchical_vae.py:102-130 | decoder network `i` has the widths of encoder network `n-1-i`; each network has `ladder_layers` layers of its width; posterior `i` is `qZ{i}`; prior `i` has its units and is it when tied, else `pZ{i}` |
| Hierarchical.UntiedHeadsDistinct | odin/bay/vi/autoencoder/hierarchical_vae.py:126-130 | untied priors share no name with any posterior |
| Hierarchical.UpwardShape | odin/bay/vi/autoencoder/hierarchical_vae.py:139-157 | the bottom-up pass yields one posterior per ladder step, each from the previous step's output, then the top latent |
| Hierarchical.StackedEncodeOrder | odin/bay/vi/autoencoder/hierarchical_vae.py:136-158 | `encode` returns `n+1` posteriors, the top latent first, then `qZ{n-1}` down to `qZ0`; each is computed by a ladder encoder from the entry after it, and the last from the base encoder's output |
| Hierarchical.StackedDecode | odin/bay/vi/autoencoder/hierarchical_vae.py:160-173 | decoding fails with IndexError exactly on an empty latent tuple |
| Hierarchical.DownwardShape | odin/bay/vi/autoencoder/hierarchical_vae.py:163-167 | the top-down pass yields one prior per ladder step, taken from the reversed prior list, each from the previous hidden state |
| Hierarchical.StackedDecodeOrder | odin/bay/vi/autoencoder/hierarchical_vae.py:160-173 | `decode` returns the observation first, then the priors of ladder steps `n-1` down to `0` |
| Hierarchical.StackedDecodeChain | odin/bay/vi/autoencoder/hierarchical_vae.py:161-171 | the decoder chain starts at a sample of the top latent, each prior comes from the previous one's input, and the observation is the base decoder applied to the last of them |
| Hierarchical.StackedDecodeReadsTop | odin/bay/vi/autoencoder/hierarchical_vae.py:161 | only the first latent matters to `decode` |
| Hierarchical.StackedLevelsAligned | odin/bay/vi/autoencoder/hierarchical_vae.py:136-173 | entry `k` of `encode` and of `decode` belong to the same ladder step: `qZ{n-k}` with `pZ{n-k}`, or with `qZ{n-k}` itself when tied |
| Hierarchical.LadderInit | odin/bay/vi/autoencoder/hierarchical_vae.py:266-272 | `LadderVAE` is a `StackedVAE` with stochastic inference off, and the lengths must agree |
| Hierarchical.LadderDecode | odin/bay/vi/autoencoder/hierarchical_vae.py:274-294 | decoding fails with IndexError exactly on an empty latent tuple |
| Hierarchical.LadderDownwardShape | odin/bay/vi/autoencoder/hierarchical_vae.py:277-287 | each zipped step gives a (posterior, prior) pair whose posterior is the merge with the prior, or the given latent when merging is off |
| Hierarchical.LadderDecodePairs | odin/bay/vi/autoencoder/hierarchical_vae.py:274-294 | the observation first, then one pair per ladder step that has a latent, pair `k` holding the prior of step `n-k` and the `k`-th latent |
| Hierarchical.LadderEncodeDecode | odin/bay/vi/autoencoder/hierarchical_vae.py:277-294 | decoding what `encode` returned, with merging off, pairs each encoder posterior unchanged with the prior of the same ladder step |
| Hierarchical.PrepareEncoderDecoder | odin/bay/vi/autoencoder/hierarchical_vae.py:449-458 | accepted iff both are layer lists after unwrapping a `Sequential`, else AssertionError |
| Hierarchical.PrepareUnwraps | odin/bay/vi/autoencoder/hierarchical_vae.py:449-458 | a `Sequential` model and the list of its layers prepare alike, in order |
| Hierarchical.OrientMapContents | odin/bay/vi/autoencoder/hierarchical_vae.py:489-490 | the map's keys are exactly the oriented keys of the pairs, and each key holds the value of the last pair stored under it |
| Hierarchical.UnetMapOrientation | odin/bay/vi/autoencoder/hierarchical_vae.py:487-490 | a pair starting with an encoder layer maps the decoder name to it; any other pair is stored as given |
| Hierarchical.UnetInit | odin/bay/vi/autoencoder/hierarchical_vae.py:464-498 | construction succeeds iff the layer lists prepare, else AssertionError; dropout and noise exist exactly for a positive rate; the skip map is the pairs oriented against the encoder names, later pairs winning |
| Hierarchical.UnetInitMap | odin/bay/vi/autoencoder/hierarchical_vae.py:487-490 | the built skip map's keys are exactly the oriented first names; the last pair under a key that starts with an encoder layer maps the decoder name to it, any other is stored as given |
| Hierarchical.EncoderOutputsKeys | odin/bay/vi/autoencoder/hierarchical_vae.py:512-516 | every encoder layer name, and only those, has a recorded output |
| Hierarchical.EncoderOutputsValues | odin/bay/vi/autoencoder/hierarchical_vae.py:512-516 | each name records the encoder output up to and including the last layer with that name |
| Hierarchical.UnetEncode | odin/bay/vi/autoencoder/hierarchical_vae.py:504-522 | the latent is the distribution of the full encoder chain; one recorded output per encoder layer name, the output after the last layer with that name |
| Hierarchical.UnetDecode | odin/bay/vi/autoencoder/hierarchical_vae.py:524-544 | decoding fails with KeyError exactly when a decoder stage meets a missing encoder output |
| Hierarchical.StagesError | odin/bay/vi/autoencoder/hierarchical_vae.py:533-542 | the stages succeed iff every skip target of the remaining decoder layers has an encoder output, and fail with KeyError otherwise |
| Hierarchical.StagesCons | odin/bay/vi/autoencoder/hierarchical_vae.py:533-542 | a successful run of stages is the first stage followed by the rest |
| Hierarchical.ChainedCons | odin/bay/vi/autoencoder/hierarchical_vae.py:533-542 | a stage followed by a chain from the next layer is a chain |
| Hierarchical.StagesChain | odin/bay/vi/autoencoder/hierarchical_vae.py:533-542 | the decoder stages chain the decoder layers, each fed the previous output |
| Hierarchical.UnetDecodeStages | odin/bay/vi/autoencoder/hierarchical_vae.py:533-542 | one output per decoder layer, each that layer applied to the previous output, plus the dropped-out and noised encoder output of its target exactly when the layer is a key of the map |
| Hierarchical.UnetSkipCount | odin/bay/vi/autoencoder/hierarchical_vae.py:536-542 | exactly one skip connection is added per decoder layer named in the map |
| Hierarchical.UnetEncodeDecode | odin/bay/vi/autoencoder/hierarchical_vae.py:504-544 | decoding what `encode` produced succeeds iff every skip target is an encoder layer |
| Hierarchical.Accepted | odin/bay/vi/autoencoder/hierarchical_vae.py:584-585 | no more entries are accepted than given |
| Hierarchical.AcceptedMembers | odin/bay/vi/autoencoder/hierarchical_vae.py:584-585 | an entry creates a ladder pair iff both its encoder and decoder names exist |
| Hierarchical.AcceptedSubsequence | odin/bay/vi/autoencoder/hierarchical_vae.py:582-585 | the accepted entries keep their order in the given list |
| Hierarchical.AcceptedCounts | odin/bay/vi/autoencoder/hierarchical_vae.py:582-585 | an entry whose two names exist is accepted as often as it is given, any other never |
| Hierarchical.AcceptedIsFilter | odin/bay/vi/autoencoder/hierarchical_vae.py:582-585 | the accepted entries are the in-order filter of the given ones on both names existing |
| Hierarchical.KeysStep | odin/bay/vi/autoencoder/hierarchical_vae.py:594-596 | adding a pair keeps every key the name of an accepted entry |
| Hierarchical.PriorsStep | odin/bay/vi/autoencoder/hierarchical_vae.py:594-596 | adding a pair keeps every earlier prior numbering unless overwritten |
| Hierarchical.PosteriorsStep | odin/bay/vi/autoencoder/hierarchical_vae.py:594-596 | adding a pair keeps every earlier posterior numbering unless overwritten |
| Hierarchical.LadderNumbering | odin/bay/vi/autoencoder/hierarchical_vae.py:582-597 | the `k`-th accepted entry's names hold `ladder_q{k}` and `ladder_p{k}` with its units, unless a later entry rewrote them or both names coincide; every key is a name of an accepted entry |
| Hierarchical.PUnetInit | odin/bay/vi/autoencoder/hierarchical_vae.py:559-598 | construction succeeds iff the layer lists prepare, else AssertionError, and keeps them in order; the ladder is the latents of the given entries against the encoder and decoder names |
| Hierarchical.PUnetInitLadder | odin/bay/vi/autoencoder/hierarchical_vae.py:582-597 | in a built `PUnetVAE` the `k`-th accepted entry's names hold `ladder_q{k}` and `ladder_p{k}` unless rewritten later, and every key is a name of an accepted entry |
| Hierarchical.LadderTermsAtHits | odin/bay/vi/autoencoder/hierarchical_vae.py:609-614 | the `k`-th ladder distribution is the latent of the `k`-th layer that has one, taken from that layer's flattened output; the positions increase and cover every such layer |
| Hierarchical.PUnetEncode | odin/bay/vi/autoencoder/hierarchical_vae.py:600-619 | the main latent comes first, from the full encoder chain |
| Hierarchical.PUnetDecode | odin/bay/vi/autoencoder/hierarchical_vae.py:621-637 | decoding fails with IndexError exactly on an empty latent list; the observation comes first, from the full decoder chain |
| Hierarchical.PUnetEncodeOrder | odin/bay/vi/autoencoder/hierarchical_vae.py:600-619 | after the main latent, entry `k+1` is the ladder posterior of the `k`-th encoder layer that has one, in layer order |
| Hierarchical.PUnetDecodeOrder | odin/bay/vi/autoencoder/hierarchical_vae.py:621-637 | after the observation, entry `k+1` is the ladder prior of the `k`-th decoder layer that has one, in layer order |
| Fuel.Join | odin/fuel/__init__.py:59-65 | the joined path ends with the name; an absolute name replaces the base; otherwise the base is a prefix and at most one separator is inserted |
| Fuel.JoinAppend | odin/fuel/__init__.py:59-65 | appending to the name appends to the joined path, unless an absolute tail turns an empty name absolute |
| Fuel.GetName | odin/fuel/__init__.py:52-56 | the name starts with the class name and equals it iff the extension is `None` or empty |
| Fuel.GetNameInjective | odin/fuel/__init__.py:52-56 | two extensions name the same dataset of a class iff they are equal, `None` and `''` counting alike |
| Fuel.DsPath | odin/fuel/__init__.py:64-65 | the dataset folder path ends with the dataset name |
| Fuel.ZipPath | odin/fuel/__init__.py:59-61 | the archive path is the dataset folder path followed by `.zip` |
| Fuel.GetLink | odin/fuel/__init__.py:68-71 | the link is the decoded origin followed by the archive's file name |
| Fuel.LinkMatchesZipPath | odin/fuel/__init__.py:59-71 | what follows the origin in the link ends the local archive path |
| Fuel.UnzipChecks | odin/fuel/__init__.py:22-26 | accepted iff the path contains `.zip` and the file exists, else ValueError |
| Fuel.ZipPathAccepted | odin/fuel/__init__.py:22-26 | every archive path a loader derives passes those checks once the archive exists |
| Fuel.GetDataset | odin/fuel/__init__.py:78-104 | a file at the folder path is a RuntimeError, and only that; any other outcome is about the dataset folder path |
| Fuel.FetchStepsChosen | odin/fuel/__init__.py:85-100 | a fetch removes the folder iff there is one, removes the archive iff it exists under override, downloads iff it is missing or overriding, and ends with the unzip |
| Fuel.GetDatasetDecision | odin/fuel/__init__.py:85-100 | a folder is reused iff it is non-empty and override is off; otherwise the fetch takes exactly the steps above |
| Fuel.After | odin/fuel/__init__.py:33-36 | a fetch leaves an extracted folder and no archive; a reuse changes nothing |
| Fuel.SecondLoadReuses | odin/fuel/__init__.py:78-104 | a second load without override, after a fetch that extracted something, reuses the folder |
| Fuel.OverrideRefetches | odin/fuel/__init__.py:78-104 | a load with override after a fetch removes the folder, downloads again and unzips |
| Fuel.LoadGlove | odin/fuel/__init__.py:264-276 | accepted iff the dimension is 50, 100, 200 or 300, else ValueError; the link starts with the origin |
| Fuel.GloveLinksDistinct | odin/fuel/__init__.py:269-273 | distinct dimensions download distinct files |

## Left out

- Keras, TensorFlow and TensorFlow Probability computation. Layers, networks and distributions are symbolic terms or descriptors. The ELBO and KL terms, `LadderMergeDistribution`'s Gaussian merge, `HVAE`, `VeryDeepVAE` and the `only_encoding`/`only_decoding` early returns are not modelled, since they are numerical.
- `_get_full_args`: which keywords each layer call accepts. It does not change the order or the structure of the outputs.
- The tied-weights `build` override of `DenseNetwork.transpose` (sequential_networks.py:156-181). It rebinds Keras kernels and does not change the layer plan.
- The start layers `ConvNetwork.transpose` infers from a built model's shapes (sequential_networks.py:276-297). These are a parameter, together with the input channel count.
- The `Input` and `Flatten` layers are modelled as descriptors only. Nested layer lists flattened by `SequentialNetwork` are not modelled: the start and extra segments are flat lists.
- `as_tuple(..., t=int)` type checks and `int()` conversions of arguments. Widths are integers in the model.
- Keras auto-naming of unnamed networks. The `self.name` a transpose reads is a parameter.
- `DeltaExtractor._transform` and `ShiftedDeltaExtractor`. The first is a stub. The second calls `super(DeltaExtractor, self)` on a class that is not a subclass and fails at construction.
- The other extractors, `stat_layers.py`, `ml/scoring.py`, `preprocessing/video.py`, the example scripts and the tests. They are numerics, I/O or wrappers.
- Downloading, unzipping, MD5 checking, the AES decryption of some loaders and the `Dataset` object. The disk is an abstract state: the folder is absent, a file, or a folder with some entries, and the archive is a present/absent flag.
- The base64 decoding of `ORIGIN`. The model uses the decoded string.
- `DataLoader.load` (odin/fuel/__init__.py:74-75) only forwards to `get_dataset`, so it has no member of its own.
- Fuel.GetDataset: the unzip step assumes the download produced the archive. A failure inside `unzip_folder`'s `try` (the folder is removed, the archive still deleted) is not modelled.
- Training.Fit: checkpointing, timing, logging, metrics dictionaries and the `tf.function` wrapping are left out. `valid_freq` is an integer; a zero frequency never fires, because the float remainder by zero is NaN. The counter is unbounded, while the source keeps it in a float32 variable.
- Training.Fit: the outer loop over epochs and the end-of-training steps are not modelled. It models one pass of `train` over the batches.
- Training.Fit: the validation set is taken to hold at least one batch. With an empty `valid_ds`, `valid()` calls no `optimize`, so a function whose call cannot bind would fail only at the training step.
- Features.Transform: names are read as Python 2 byte strings (`iteritems`), with ASCII-only `isupper` and `lower`. Python 3 case rules are Unicode-aware (`'É'.isupper()` is true, `'İ'.lower()` has two characters); those rules are not modelled. The same holds for the lower-casing in Features.NewEqualizeShape0.
- Networks.Build: core layers take the corrected bias flag (`use_bias[i]` and not `batchnorm[i]`), not the flag at sequential_networks.py:121 as written, which never sets a bias. The as-written flag is stated by Networks.BiasAsWrittenNeverSet and Networks.BiasAsWrittenCounterexample (see Findings).
- EarlyStop.Decide: every loss but the last must be finite and positive. The source does not check this; with a zero or negative best loss, its divisions lose their meaning.
- Networks.Prepare: `_store_arguments` keeps the constructor's `locals()`. The model keeps the arguments the constructor re-reads, which are the ones that matter for `transpose`.

## Findings

| source | as written | input that shows it | evidently intended | confidence | as-written member | corrected member |
|---|---|---|---|---|---|---|
| odin/networks/sequential_networks.py:121 | `use_bias=(False if batchnorm else True) and use_bias[i]` tests the truth of the whole broadcast `batchnorm` tuple; it is never empty inside the loop, so no core layer ever gets a bias (also at lines 245 and 404) | `DenseNetwork(units=8, batchnorm=False, use_bias=True)`: one layer, no batch normalisation, bias requested, built without bias | a layer has a bias when `use_bias[i]` and not `batchnorm[i]` | not executed | Networks.BiasAsWrittenNeverSet, Networks.BiasAsWrittenCounterexample | Networks.BiasIntended, Networks.BuildBias |
| odin/networks/sequential_networks.py:107 | `_store_arguments(locals())` also stores the local `nlayers`; `DenseNetwork.transpose` passes all stored arguments back to `DenseNetwork(**args)`, which has no `nlayers` parameter | any `DenseNetwork(...).transpose()` on a network not yet transposed raises TypeError | the stored arguments exclude `nlayers`, and the transpose builds the reversed network | not executed | Networks.DenseTransposeAsWrittenFails | Networks.DenseTranspose, Networks.DenseTransposeReverses |
| odin/backend/keras_helpers.py:358-364 | `validate_optimize` requires `'tape'` anywhere in the arguments, including first; `step` gives the batch positionally to the first parameter and also passes `tape=` | `def optimize(tape): ...` passes the check; the first `step` call raises TypeError (multiple values for `tape`) | the first parameter takes the batch and is no template name, and `tape` is among the rest | not executed | Training.ValidatedCallCanFail, Training.Fit | Training.ValidateOptimizeIntended, Training.IntendedValidationMatchesCall |
