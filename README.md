# TokenSmith core, modelled in Dafny

TokenSmith is a toolkit for inspecting and editing the tokenized training data
of a language model. This project models three parts of it, with proofs:

- **Index builder** (`tokensmith/megatron_dependencies.py`). It turns a corpus
  and a run's settings into the three training index arrays:
  - doc-idx: the documents in training order;
  - sample-idx: where each sample starts;
  - shuffle-idx: the order in which samples are drawn.

  The model covers the token count, the epoch search and the shuffled stack
  of epochs. It covers the cache fingerprint and the rebuild decision, and
  the `pack_until_overflow` and `unpacked` packing loops. It also covers the
  partition of a dataset into train/validation/test ranges from a ratio
  string.
- **Edit handler** (`tokensmith/edit/handler.py`). This is the front end of
  injecting a text into a training sample:
  - argument validation;
  - the rule that appends an end-of-sequence token;
  - the before/after report;
  - the batch loop;
  - the checks of `preview_sample`;
  - `validate_injection_location`.
- **Dataset manager** (`tokensmith/manager.py`). It has five handler slots,
  and each slot is set once by one of two setup methods. The model covers
  the guards and the order in which they run.

Modules:
- `Common`: the result and option types and the Python exceptions.
- `Rng`: a random generator with an in-place shuffle. Its only contract is
  that the result is a permutation.
- `IndexMath`: token counts, epochs, stacked epochs, the int32 cast and
  permutations of a range.
- `Fingerprint`: the cache file names.
- `IndexBuilder`: the array builders and `build_index_mappings`.
- `SplitPartitioner`: the train/validation/test partition.
- `EditHandler`: the injection front end.
- `Manager`: the dataset manager.

The loops of the source are `method`s with loop invariants. Each method is
proved against a pure function or predicate. The properties are lemmas about
those functions.

Where the code and its documentation disagree, the model follows the code:
- `build_index_mappings` with an unknown packing implementation builds and
  saves nothing, and it raises no error.
- The packing loops store document *positions* in `[0, len(documents))` and
  read sizes and labels at those positions, not at `documents[pos]`.
- `unpacked` masks with `labels[:seq_length]`; `pack_until_overflow` masks
  with `labels[:seq_length + 1]`.

## Model

| member | source | states |
|---|---|---|
| Rng.RandomState.Shuffle | tokensmith/megatron_dependencies.py:48 | the in-place shuffle leaves the array's multiset of elements unchanged |
| IndexMath.NumTokens | tokensmith/megatron_dependencies.py:14-19 | the token total is at least the size of every listed document, and it is 0 for no documents |
| IndexMath.NumTokensAppend | tokensmith/megatron_dependencies.py:19 | the token total of two concatenated document lists is the sum of their totals |
| IndexMath.NumEpochs | tokensmith/megatron_dependencies.py:21-36 | returns the least k >= 1 with (k * tokens_per_epoch - 1) // seq_length >= num_samples, where `//` is numpy's floor division on the `np.sum` total, so a zero seq_length gives 0 and no samples wanted gives 1 epoch |
| IndexMath.EnoughEpochsMonotone | tokensmith/megatron_dependencies.py:29-36 | once an epoch count is enough, every larger count is too, so the search result is the threshold |
| IndexMath.ZeroTokensNeverEnough | tokensmith/megatron_dependencies.py:29-36 | with 0 tokens per epoch no count passes the test, so the search loop never returns |
| IndexMath.ZeroLengthNeverEnough | tokensmith/megatron_dependencies.py:29-36 | with seq_length 0 and some samples wanted, no count passes the test (numpy's `// 0` is 0), so the search loop never returns |
| IndexMath.Stack | tokensmith/megatron_dependencies.py:44-46 | the stacked epochs have num_epochs * len(documents) entries |
| IndexMath.StackCount | tokensmith/megatron_dependencies.py:44-46 | each id occurs in the stack num_epochs times as often as in one epoch |
| IndexMath.StackTokens | tokensmith/megatron_dependencies.py:44-46 | the stack holds num_epochs times the tokens of one epoch |
| IndexMath.Int32 | tokensmith/megatron_dependencies.py:47 | the int32 cast lands in [-2^31, 2^31) and is congruent to its input modulo 2^32 |
| IndexMath.CastInt32 | tokensmith/megatron_dependencies.py:47 | the element-wise cast keeps the length and casts each element |
| IndexMath.CastInt32Identity | tokensmith/megatron_dependencies.py:47 | ids below 2^31 pass through the cast unchanged |
| IndexMath.Range | tokensmith/megatron_dependencies.py:59 | np.arange(n) has n entries and entry k is k |
| IndexMath.RangeCount | tokensmith/megatron_dependencies.py:59 | every value below n occurs once in np.arange(n), and no other value occurs |
| IndexMath.PermutationOfRangeFacts | tokensmith/megatron_dependencies.py:51-61 | a shuffled range of n has n entries, each below n, and no two are equal |
| Fingerprint.DecimalString | tokensmith/megatron_dependencies.py:102-104 | "{}".format(n) is a non-empty run of digits with no leading zero |
| Fingerprint.ParseDecimalString | tokensmith/megatron_dependencies.py:102-104 | reading the rendered digits back gives n |
| Fingerprint.DecimalStringInjective | tokensmith/megatron_dependencies.py:102-104 | different numbers render differently |
| Fingerprint.IndexFileNames | tokensmith/megatron_dependencies.py:108-110 | the three cache file names extend the fingerprint and are pairwise distinct |
| Fingerprint.ChopFlagSuffix | tokensmith/megatron_dependencies.py:106-107 | the fingerprint ends in "_ac" exactly when allow_chopped is set |
| Fingerprint.FingerprintSplits | tokensmith/megatron_dependencies.py:100-105 | the fingerprint is prefix + "_{name}_indexmap_" followed by the settings part |
| Fingerprint.TailInjective | tokensmith/megatron_dependencies.py:102-107 | the settings part determines the sample count, sequence length, seed, packing implementation and chop flag |
| Fingerprint.FingerprintInjective | tokensmith/megatron_dependencies.py:100-107 | with the same prefix and name, two settings share cache files only if they are equal, so any change forces a rebuild |
| IndexBuilder.Arange | tokensmith/megatron_dependencies.py:59 | fills a fresh array with 0..n-1 |
| IndexBuilder.WriteEpoch | tokensmith/megatron_dependencies.py:44-45 | one epoch's ids are written after the filled prefix, and the prefix is kept |
| IndexBuilder.BuildDocIdx | tokensmith/megatron_dependencies.py:38-49 | doc-idx has num_epochs * len(documents) entries and is a permutation of the int32-cast stacked epochs |
| IndexBuilder.DocIdxOccurrences | tokensmith/megatron_dependencies.py:38-49 | with distinct ids below 2^31, every document occurs exactly num_epochs times in doc-idx |
| IndexBuilder.ShuffleDtypeHoldsEntries | tokensmith/megatron_dependencies.py:56-59 | the element type chosen at uint32max - 1 can hold every entry of the range |
| IndexBuilder.BuildShuffleIdx | tokensmith/megatron_dependencies.py:51-61 | the dtype widens to int64 exactly when size >= uint32max - 1, and shuffle-idx is a permutation of [0, size) |
| IndexBuilder.PackStepCases | tokensmith/megatron_dependencies.py:174-205 | one iteration at a position that is skipped or in the size table either skips (the position moves on without a wrap), opens a new sample, or extends the open one |
| IndexBuilder.PastTableStep | tokensmith/megatron_dependencies.py:175-190 | at a position past the size table the iteration succeeds exactly when chopping is allowed and its label row is fully masked, and then only skips; otherwise it raises IndexError (line 177 or line 190 reads the size) |
| IndexBuilder.MaskedPastTableExample | tokensmith/megatron_dependencies.py:175-205 | two documents, a size table of one, chopping allowed, position 1 fully masked, order [1, 0]: the loop skips position 1, then opens a sample on position 0 and wraps |
| IndexBuilder.MoveKeeps | tokensmith/megatron_dependencies.py:177-179 | a skip, which only moves the position, keeps the loop invariant |
| IndexBuilder.OpenSampleKeeps | tokensmith/megatron_dependencies.py:191-198 | starting a sample at the next doc-idx position keeps the invariant: ordered boundaries, and closed samples within seq_length + 1 tokens |
| IndexBuilder.ExtendSampleKeeps | tokensmith/megatron_dependencies.py:199-201 | adding a document that still fits keeps the running length equal to the open sample's tokens and within seq_length + 1 |
| IndexBuilder.SkipStepKeeps | tokensmith/megatron_dependencies.py:177-179 | a skip moves the position on by one, without a wrap, and keeps the invariant |
| IndexBuilder.OpenStepKeeps | tokensmith/megatron_dependencies.py:190-198 | placing a document that opens a sample keeps the invariant and adds exactly one boundary |
| IndexBuilder.ExtendStepKeeps | tokensmith/megatron_dependencies.py:199-201 | placing a document that still fits keeps the invariant and adds no boundary |
| IndexBuilder.PackStepPreserves | tokensmith/megatron_dependencies.py:174-205 | every iteration keeps the invariant and opens at most one sample |
| IndexBuilder.CloseSpans | tokensmith/megatron_dependencies.py:191-198 | closing the open sample at the end of doc-idx keeps every closed sample within seq_length + 1 tokens |
| IndexBuilder.PackFinish | tokensmith/megatron_dependencies.py:206 | appending the closing boundary gives a valid packed sample-idx |
| IndexBuilder.SkipAtLastPositionOverruns | tokensmith/megatron_dependencies.py:175-205 | skipping the last document of a shuffle order leaves the position past the end, and the next iteration raises IndexError |
| IndexBuilder.PlacementWraps | tokensmith/megatron_dependencies.py:190-205 | a placement appends the document and wraps to 0 with a reshuffle exactly at the last position |
| IndexBuilder.RunningNeedsPositiveDoc | tokensmith/megatron_dependencies.py:190-201 | a non-empty open sample holds a placeable document with tokens |
| IndexBuilder.PackStepMonotone | tokensmith/megatron_dependencies.py:174-205 | no iteration increases the progress measure (samples still to open, then room left in the open sample) |
| IndexBuilder.PackStepKeyProgress | tokensmith/megatron_dependencies.py:190-201 | placing a document with tokens, or any document when the open sample is empty, strictly decreases the progress measure |
| IndexBuilder.PassStep | tokensmith/megatron_dependencies.py:174-205 | within one pass over the shuffle order the position moves on by one and no progress is lost; once the pass's key document has been met, progress has been made; at the wrap (position 0, reshuffle) the pass has made progress |
| IndexBuilder.PassError | tokensmith/megatron_dependencies.py:174-189 | an iteration fails only with IndexError, and only when there are no documents, a position lies past the size table (met without being skipped: with chopping allowed a fully masked one is skipped), or some document is skipped (which can leave the position past the end of the order) |
| IndexBuilder.PackUntilOverflow | tokensmith/megatron_dependencies.py:163-209 | the loop always ends; on success sample-idx has num_samples + 1 rows: the first is (0, 0), the last is len(doc_idx), offsets are 0, starts strictly increase, and every sample of two or more documents fits in seq_length + 1 tokens; placed documents are never oversized (without chopping) or fully masked; shuffle-idx is a permutation; the only error is IndexError, raised only when num_samples > 0 and there are no documents, a position lies past the size table (it raises only if not skipped, and with chopping allowed a fully masked one is skipped), or some document is skipped; with chopping allowed, no labels, every position in the table and at least one document (or no sample wanted) it succeeds |
| IndexBuilder.CyclicGapOfStep | tokensmith/megatron_dependencies.py:223-230 | g cyclic steps forward from a position lie g steps away |
| IndexBuilder.AdvanceIsStep | tokensmith/megatron_dependencies.py:223 | (doc_i + 1) % len(documents) is one cyclic step |
| IndexBuilder.WalkSkip | tokensmith/megatron_dependencies.py:220-228 | a skipped position keeps the walk invariant and brings the walk closer to a document that is not skipped |
| IndexBuilder.WalkPlace | tokensmith/megatron_dependencies.py:229-230 | placing a document keeps the walk invariant: everything passed since the previous placement was skipped |
| IndexBuilder.Unpacked | tokensmith/megatron_dependencies.py:210-233 | a position past the size table raises IndexError when chopping is off, whatever its labels, because the size is read first; on success doc-idx has num_samples + 1 positions below len(documents); these are the first positions in cyclic order that are not skipped, and none is oversized (without chopping) or fully masked; sample-idx is (i, 0) and shuffle-idx is a permutation; with no label dataset it fails |
| IndexBuilder.BuildArrays | tokensmith/megatron_dependencies.py:122-233 | packed always succeeds and saves doc-idx, sample-idx and shuffle-idx as the packed contract says, calling the sample-idx helper even for seq_length 0, where numpy's true division gives -inf (int32 helper) or +inf or nan (int64 helper); pack_until_overflow and unpacked carry their builders' success and error conditions; an unknown implementation saves nothing and raises nothing |
| IndexBuilder.BuildIndexMappings | tokensmith/megatron_dependencies.py:63-233 | the checks run in source order: a document past the size table raises IndexError, a seed outside [0, 2^32) raises ValueError, and the epoch search between them raises nothing (numpy's `// 0` is 0); once they pass, the files are reused exactly when all three exist, and otherwise each implementation succeeds or fails as BuildArrays says; what is saved lies under the fingerprint's names and satisfies the packed, pack_until_overflow or unpacked contract |
| SplitPartitioner.SplitOn | tokensmith/megatron_dependencies.py:242 | str.split gives at least one piece and no piece holds the separator |
| SplitPartitioner.JoinSplitOn | tokensmith/megatron_dependencies.py:242 | joining the pieces gives back the string |
| SplitPartitioner.SplitOnJoin | tokensmith/megatron_dependencies.py:242 | splitting a join of separator-free pieces gives back the pieces |
| SplitPartitioner.ParseAll | tokensmith/megatron_dependencies.py:242-246 | the fields parse exactly when every field parses, element by element |
| SplitPartitioner.Round | tokensmith/megatron_dependencies.py:255 | round() is within one half of its argument |
| SplitPartitioner.RoundMonotone | tokensmith/megatron_dependencies.py:255 | round() never reverses order |
| SplitPartitioner.RoundWhole | tokensmith/megatron_dependencies.py:255 | whole numbers round to themselves |
| SplitPartitioner.Padded | tokensmith/megatron_dependencies.py:247-249 | exactly three ratios: the given ones, zero-padded, extras dropped |
| SplitPartitioner.Cumulative | tokensmith/megatron_dependencies.py:253-255 | splits_index starts at 0 and each entry adds the rounded share of the next ratio |
| SplitPartitioner.SharesSum | tokensmith/megatron_dependencies.py:250-252 | the shares add up to the ratio sum over the divisor, so dividing by the ratio sum gives fractions that sum to one |
| SplitPartitioner.PadRatios | tokensmith/megatron_dependencies.py:247-249 | the padding loop and slice give the padded ratios |
| SplitPartitioner.CumulativeIndex | tokensmith/megatron_dependencies.py:253-255 | the append loop builds the running sums of rounded shares |
| SplitPartitioner.CorrectOvershoot | tokensmith/megatron_dependencies.py:256-258 | the same correction diff = last - size is subtracted from indices 1..3 |
| SplitPartitioner.GetTrainValidTestSplit | tokensmith/megatron_dependencies.py:235-261 | the function step by step equals the partition spec, with ValueError for a field that does not parse and AssertionError for a ratio sum <= 0 |
| SplitPartitioner.SplitShape | tokensmith/megatron_dependencies.py:250-260 | AssertionError exactly when the padded ratios sum to <= 0; otherwise 4 boundaries, the first 0 and the last size |
| SplitPartitioner.SplitRangeSizes | tokensmith/megatron_dependencies.py:253-258 | the validation and test ranges are their rounded shares, and the train range absorbs the correction |
| SplitPartitioner.RoundingErrorsOfThree | tokensmith/megatron_dependencies.py:255 | three rounded shares of fractions that sum to one miss size by at most one |
| SplitPartitioner.OvershootBounded | tokensmith/megatron_dependencies.py:255-256 | the overshoot diff is -1, 0 or 1 |
| SplitPartitioner.SourceAssertionsHold | tokensmith/megatron_dependencies.py:259-260 | the two closing assertions hold on every input that reaches them |
| SplitPartitioner.FieldsExample | tokensmith/megatron_dependencies.py:241-242 | "969,30,1" splits into "969", "30", "1" |
| SplitPartitioner.BoundariesExample | tokensmith/megatron_dependencies.py:247-261 | ratios 969, 30, 1 over 1000 documents give [0, 969, 999, 1000] |
| SplitPartitioner.Example969 | tokensmith/megatron_dependencies.py:235-261 | "969,30,1" with size 1000 gives [0, 969, 999, 1000] |
| SplitPartitioner.SplitBoundaryBelowZero | tokensmith/megatron_dependencies.py:253-258 | as written, ratios 0, 1, 1 over 3 documents give [0, -1, 1, 3] |
| SplitPartitioner.PrefixSums | tokensmith/megatron_dependencies.py:253-255 | running sums of the ratios, starting at 0 |
| SplitPartitioner.RoundedShareMonotone | tokensmith/megatron_dependencies.py:255 | a larger fraction never gets a smaller rounded share |
| SplitPartitioner.ShareEnds | tokensmith/megatron_dependencies.py:253-260 | the cumulative fraction 0 rounds to 0 and the cumulative fraction 1 rounds to size |
| SplitPartitioner.PrefixSumsOrdered | tokensmith/megatron_dependencies.py:247-252 | non-negative ratios give non-decreasing running sums |
| SplitPartitioner.RoundedSharesOrdered | tokensmith/megatron_dependencies.py:255 | non-decreasing fractions give non-decreasing rounded shares |
| SplitPartitioner.SplitBoundariesRoundedOrdered | tokensmith/megatron_dependencies.py:235-261 | corrected partition: with non-negative ratios it has 4 boundaries from 0 to size, never decreasing |
| SplitPartitioner.Example969Rounded | tokensmith/megatron_dependencies.py:235-261 | the corrected partition still gives [0, 969, 999, 1000] for "969,30,1" and 1000 |
| EditHandler.AsIndex | tokensmith/edit/handler.py:57 | isinstance(v, int) and v >= 0 holds for non-negative ints and for bools |
| EditHandler.ParseInjectionType | tokensmith/edit/handler.py:60-61 | accepts exactly "seq_shuffle" and "seq_start" |
| EditHandler.ValidateInjection | tokensmith/edit/handler.py:53-61 | passes exactly when text is a str, the tokenizer is given, the location is a non-negative int and the type is valid; otherwise ValueError |
| EditHandler.WithEos | tokensmith/edit/handler.py:70-76 | with add_eos and an EOS id the payload ends in EOS and gains at most one token; it is unchanged exactly when it already ended in EOS, or when add_eos is off or there is no EOS id |
| EditHandler.WithEosIdempotent | tokensmith/edit/handler.py:70-74 | applying the EOS rule twice equals applying it once |
| EditHandler.Payload | tokensmith/edit/handler.py:64-76 | a tokenizer failure becomes ValueError; otherwise the payload is the token ids under the EOS rule |
| EditHandler.ConcatAppend | tokensmith/edit/handler.py:92 | concatenating a list of segment lists equals concatenating each part and joining the results |
| EditHandler.ViewSample | tokensmith/edit/handler.py:92-93 | an empty sample raises ValueError in concatenate; otherwise raw tokens are the concatenated segments, num_documents their count, and decoded_text is tokenizer.decode of the raw tokens when the tokenizer has decode, else str() of them |
| EditHandler.RunInjection | tokensmith/edit/handler.py:63-150 | every failure of tokenization, concatenation and the three dataset calls is ValueError (decode is taken not to fail); on success the dataset sees exactly get, inject (payload, type, dry_run, rng or default_rng(1234)), get; the report echoes location, type, dry_run, text and payload; original_sample is the view (raw tokens, decoded text, num_documents) of the first read, modified_sample the view of the read after the injection, and injection_details what the injection returned |
| EditHandler.InjectAndPreview | tokensmith/edit/handler.py:21-150 | invalid arguments raise ValueError before any dataset call; otherwise the run's calls are made, and the report is returned exactly when return_details is set |
| EditHandler.BatchStep | tokensmith/edit/handler.py:197-215 | one entry is injected with details; a failure is recorded as error + injection_index i; a report echoes the entry's location and text, and its type defaults to "seq_shuffle" |
| EditHandler.BatchStepInjects | tokensmith/edit/handler.py:197-220 | an entry is inject_and_preview with return_details: the same dataset calls, a report exactly when that call succeeds and then its report, and otherwise its error with index i |
| EditHandler.RunBatch | tokensmith/edit/handler.py:189-222 | the batch aborts with ValueError exactly when some entry is not a dict or lacks text or injection_loc; otherwise one result per entry in input order, each a report for that entry or an error tagged with its index |
| EditHandler.InjectMultipleSamples | tokensmith/edit/handler.py:161-225 | a non-list, an empty list or a missing tokenizer raises ValueError before any dataset call; otherwise the loop matches RunBatch, and results are returned exactly when return_details is set |
| EditHandler.RunBatchStep | tokensmith/edit/handler.py:190-215 | one more entry either aborts the batch (malformed) or appends that entry's result |
| EditHandler.AbortedBatchStops | tokensmith/edit/handler.py:191-195 | once the batch has aborted, one more entry changes neither the result nor the dataset's calls |
| EditHandler.AbortSticks | tokensmith/edit/handler.py:191-195 | once an entry aborts the batch, later entries are never processed and the dataset sees no more calls |
| EditHandler.BatchDefaultRng | tokensmith/edit/handler.py:81 | without a generator, every injection of a batch gets a fresh default_rng(1234), so each entry draws the same random stream |
| EditHandler.PreviewSample | tokensmith/edit/handler.py:249-272 | ValueError with no dataset call exactly for a non-int or negative id, or for detokenizing without a tokenizer; otherwise one dataset read, whose failure propagates exactly when the read fails; on success the sample is generate_training_sample of the read segments when detokenized text is asked for, else the segments, and doc_details are the read's details exactly when asked for |
| EditHandler.AsWrittenRejectsEverything | tokensmith/edit/handler.py:284-290 | as written, validate_injection_location is False for every location |
| EditHandler.AsWrittenRejectsFirstSample | tokensmith/edit/handler.py:284-290 | location 0 of a ten-sample dataset: False as written, True as intended |
| EditHandler.ValidateInjectionLocation | tokensmith/edit/handler.py:284-290 | corrected: True exactly for a non-negative int below the dataset's sample count |
| Manager.NewSearchHandler | tokensmith/search/handler.py:17-28 | the search handler is built exactly when vocab is 2^16 or 2^32 and, with reuse, the index path exists; otherwise ValueError |
| Manager.SetupSearchStep | tokensmith/manager.py:43-56 | search is set only when it was None; a second call or a failed construction raises and changes nothing; no other field is touched |
| Manager.SetupFillsUpToFirstTaken | tokensmith/manager.py:89-120 | the dataset is replaced first; the guards run edit, inspect, sample, export, so the empty slots before the first set one are filled and the rest are kept; success exactly when all four were empty; search is untouched |
| Manager.FreshSetupFillsAll | tokensmith/manager.py:11-19 | on a fresh manager the setup succeeds and sets all four handlers and the dataset, with search still None |
| Manager.SecondSetupReplacesDataset | tokensmith/manager.py:89-105 | a second setup raises ValueError but has already replaced the dataset, so the failed call changes the state |
| Manager.SetupsCommute | tokensmith/manager.py:21-120 | the two setups touch disjoint fields, so when both succeed their order does not matter |
| Manager.DatasetManager.constructor | tokensmith/manager.py:11-19 | all five handler slots are None and there is no dataset yet |
| Manager.DatasetManager.SetupSearch | tokensmith/manager.py:21-56 | the fields change exactly as SetupSearchStep says |
| Manager.DatasetManager.SetupEditInspectSampleExport | tokensmith/manager.py:58-120 | the fields change exactly as the dataset assignment followed by the four guards says |

## Left out

- The packed implementation's sample-idx comes from the C++ `megatron.data.helpers`. That code is not part of this model, so the helper is a function parameter.
- Random numbers: `np.random.RandomState` and `default_rng` are modelled only through their permutation contract. `Rng.RandomState` is a stand-in and does not reproduce numpy's stream.
- IndexBuilder.Unpacked: requires some position that the walk does not skip. Without one the source loops for ever, and the model does not cover that case.
- IndexBuilder.BuildIndexMappings: requires, when the epoch count must be searched, a positive token count for a positive seq_length and no samples wanted for seq_length 0. Otherwise `_num_epochs` never returns (see `IndexMath.ZeroTokensNeverEnough` and `IndexMath.ZeroLengthNeverEnough`), and the model does not cover that case.
- EditHandler.ViewSample: `tokenizer.decode` is taken to return a string. An exception from it (handler.py:93 and 124 sit outside any `try`) is not modelled.
- EditHandler.RunInjection: for the same reason, a failing `tokenizer.decode` is not modelled, so the contract's "every failure is ValueError" covers only tokenization, concatenation and the dataset calls.
- EditHandler.PreviewSample: `generate_training_sample` (the parameter `detokenize`, handler.py:267) is taken not to raise.
- The seed of `build_index_mappings` is an integer. Other seeds that `np.random.RandomState` handles (`None`, an array) are not modelled.
- `sizes.dtype == np.int32` and the doc-idx dtype asserts of the packed branch are not modelled. Sizes are unbounded naturals.
- File I/O: `np.save` and `os.path.isfile` are not modelled. File existence is the parameter `isFile`, and the saved arrays are returned instead of written.
- Logging, timing, `print` and `warnings.warn` are not modelled.
- Floating point: `float(s)` is the parameter `toFloat`, and ratios are exact reals. `round` is round-half-even on exact values, so IEEE rounding of `split * size` is not modelled.
- The dataset behind the edit handler (`WriteableMMapIndexedDataset` in `tokensmith/utils`) is not part of this model. It is an oracle over the calls made to it so far, and its constructor's outcome is a parameter of the manager's setup.
- The tokenizer is given as its encode, EOS id and decode. `generate_training_sample` is the parameter `detokenize`.
- The texts of the error messages are not modelled. `str()` of a numpy array is kept as the token list.
- EditHandler.InjectAndPreview: the manager's dataset is assumed to be set. A handler can only be obtained from a completed setup, so the `None` dataset case is not modelled.
- Building or loading the search index (`tokengrams.MemmapIndex`) and its sortedness assert are not modelled. The search handler is its arguments.
- The inspect, sample, export, ingest, search-query and UI handlers are not modelled. Neither are the older root `manager.py`, the scripts and the packaging.

## Findings

| source | as written | input that shows it | evidently intended | confidence | as-written member | corrected member |
|---|---|---|---|---|---|---|
| tokensmith/megatron_dependencies.py:253-258 | each ratio's share is rounded separately and the whole overshoot is taken off boundaries 1..3, which can push the train boundary below 0 | splits_string "0,1,1", size 3: shares 1.5 and 1.5 both round to 2, the overshoot is 1, and the result is [0, -1, 1, 3] | boundaries from 0 to size that never decrease, so the three ranges have non-negative sizes (rounding the cumulative fraction at each boundary gives this) | high; not executed | SplitPartitioner.SplitBoundaryBelowZero | SplitPartitioner.SplitBoundariesRoundedOrdered |
| tokensmith/edit/handler.py:284-290 | the bound is read from `self.WriteableMMapIndexedDataset`, which an `EditHandler` never has; the AttributeError is caught, so every location is reported invalid | injection_loc 0 with a ten-sample dataset: the result is False | a non-negative int below the manager's dataset's `num_samples` is valid | high; not executed | EditHandler.AsWrittenRejectsEverything | EditHandler.ValidateInjectionLocation |
