# Arabic TTS data pipeline — a verified model

This project models the data-loading core of an Arabic text-to-speech
training pipeline (Tacotron2/FastPitch style) and proves properties of it in
Dafny. The modelled code is the dataset module `futils/data.py` and the
transcript-cleaning loop of `script.py`:

- **`text_mel_collate_fn`** (`collate.dfy`). It sorts a batch of
  (token ids, mel spectrogram) pairs by token count, longest first. It then
  zero-pads the ids, pads the mels with `pad_value`, builds the gate
  (stop-token) matrix and returns both length vectors. Errors are modelled in
  the order the code raises them: an empty batch, then a mel that is not
  2-D, then a mel whose row count cannot be copied into the padded tensor.
- **`remove_silence`** (`silence.dfy`): the keep-mask of a per-frame
  energy contour, with the quiet tail forced to kept.
- **`normalize_pitch`** (`pitch.dfy`): in-place standardisation that
  keeps unvoiced (zero) frames at zero.
- **`_process_line`** (`line_parser.dfy`): it turns the named groups of a
  label-pattern match into phonemes and an audio file name. A tagged-variant
  view (transcription × audio name) is included.
- **`ArabDataset._process_csvfile`** (`csv_dataset.dfy`): required-column
  validation, the `clip_{index:05}.wav` naming, and the
  skip-on-failure row loop.
- **`ArabDataset4FastPitch._process_textfile`** (`text_dataset.dfy`):
  the line loop. Caught failures drop a line. The two failures outside the
  `try` blocks abort the load: a `None` file name, and a missing pitch
  contour.
- **`DynBatchDataset`** (`dyn_batch.dfy`): the length-bucketed dynamic
  batch sampler (`shuffle`, `__len__`, `__getitem__`). It is a class whose
  `idBatches` field is reassigned by `Shuffle`.
- **The timestamp-stripping loop of `script.py`** (`timestamps.dfy`):
  `re.sub(r'^\d+:\d+\s*', '', line)` on each line.

Shared pieces:

- `filtering.dfy` holds the "collect, skip or abort" shape that both loaders
  share.
- `paths.dfy` holds POSIX `os.path.join` and `basename` and the zero-padded
  clip-name format.
- `wrappers.dfy` and `seq_util.dfy` hold small helpers.

Four behaviours of the code are easy to miss, and the model keeps them:

- `remove_silence` does not always keep the last frame. The backward loop
  stops at index 0 without forcing it, so a one-frame quiet contour yields
  `[False]`, and an all-quiet contour keeps every frame but the first.
- The gate starts at `mel_length - 1` only for clips with at least one
  frame. For a clip with no frames, the slice `[-1:]` marks only the last
  padded column.
- A tier is the first `i` with `max_lens[i] <= len < max_lens[i+1]`. This
  is the smallest bucket holding the length only when the bounds ascend
  (`DynBatch.TierIsUnique`).
- A negative batch size silently drops that group's samples, because
  `range(0, n, bs)` is empty. A zero batch size raises.

## Model

| member | source | states |
|---|---|---|
| Collate.CollateBatch | Code/Architecture/futils/data.py:13-53 | Fails with EmptyBatch iff the batch is empty. Otherwise it fails at the first non-2-D mel, with its index and rank, iff some mel is not 2-D. It fails with a shape mismatch iff some mel's row count neither equals nor broadcasts to batch[0]'s. On success the rows follow a longest-first permutation of the samples, and every cell of the five tensors is described (`PaddedAs`). |
| Collate.ArgSortDescending | Code/Architecture/futils/data.py:25-27 | The returned order is a permutation of the positions, and lengths along it never increase. |
| Collate.SortedHeadIsMax | Code/Architecture/futils/data.py:25-28 | The length at the head of a longest-first permutation is the maximum length, so `max_input_len` is the longest text. |
| Collate.SortedInputLengths | Code/Architecture/futils/data.py:25-27 | The returned `input_lens_sorted` holds exactly the batch's text lengths (as a multiset), in non-increasing order. |
| Collate.FindBadDim | Code/Architecture/futils/data.py:31-33 | Finds nothing iff every mel is 2-D. Otherwise it returns the first index whose mel is not 2-D. |
| Collate.MaxOf | Code/Architecture/futils/data.py:36 | Python `max`: the result bounds every element and is one of them. |
| Collate.SliceStart | Code/Architecture/futils/data.py:49 | Python slice-start normalisation: in-range starts are kept, a negative start counts from the end, a start below minus the length becomes 0, and a start past the length becomes the length. |
| Collate.GateCell | Code/Architecture/futils/data.py:49 | A gate cell is 0 or 1. For a clip with frames it is 1 exactly from the clip's last frame on; for a clip without frames it is 1 exactly in the last column. |
| Collate.FillTextRow | Code/Architecture/futils/data.py:47 | Row i takes the ids in its first len(ids) cells; every other cell is unchanged. |
| Collate.FillMelBin | Code/Architecture/futils/data.py:48 | One mel bin of row i takes a channel's values in its first frames; every other cell is unchanged. |
| Collate.FillMelRow | Code/Architecture/futils/data.py:48 | Row i takes the mel in its first `frames` columns of every bin, broadcasting a single-row mel; every other cell is unchanged. |
| Collate.FillGateRow | Code/Architecture/futils/data.py:49 | Row i is set to 1 from `start` on; every other cell is unchanged. |
| Collate.CopyRow | Code/Architecture/futils/data.py:46-50 | One loop iteration extends the "rows before i are filled, the rest are still initial" state of all four tensors to row i. |
| Collate.CopyRows | Code/Architecture/futils/data.py:45-50 | Succeeds iff every mel fits batch[0]'s row count. Then every text, mel, gate and length cell holds its sorted sample's value. |
| Collate.PadSorted | Code/Architecture/futils/data.py:35-53 | The tensors are allocated at the longest text and the longest clip, padded, and filled; fails exactly on a mel shape mismatch. |
| Collate.UnpadRecoversSample | Code/Architecture/futils/data.py:45-50 | Trimming row i to its recorded input and output lengths gives back the sample's ids and mel (when the row counts agree). Past those lengths only padding remains. The gate turns on exactly at the last frame. |
| Silence.QuietTailStart | Code/Architecture/futils/data.py:68-72 | The start of the maximal run of frames at or below the threshold at the end of the contour. |
| Silence.RemoveSilence | Code/Architecture/futils/data.py:65-73 | Fails iff the contour is empty. Otherwise every loud frame is kept, frames before the quiet tail are kept iff loud, and the quiet tail is kept except for frame 0. Frame 0 is kept iff loud, and the last frame of a contour of two or more frames is kept. |
| Silence.AllQuietTail | Code/Architecture/futils/data.py:69-72 | On a contour that is quiet everywhere the quiet tail is the whole contour. |
| Pitch.NormalizePitch | Code/Architecture/futils/data.py:56-63 | The array ends up as the frame-wise normalisation of its old contents: zero frames stay zero, others become (p - mean) / std. |
| Pitch.NormalizedContour | Code/Architecture/futils/data.py:59-62 | One value per frame: unvoiced frames are 0, and every voiced frame is recovered by q * std + mean. |
| Pitch.NormalizationInvertible | Code/Architecture/futils/data.py:59-62 | Every voiced frame is recovered by q * std + mean, and every unvoiced frame is 0 afterwards. |
| Pitch.AllUnvoicedStaysZero | Code/Architecture/futils/data.py:59-62 | An all-zero contour stays all zero whatever the statistics. |
| Paths.JoinPath | Code/Architecture/futils/data.py:150 | An absolute name replaces the directory. Otherwise the path is the directory, then one `/` exactly when the directory is non-empty and does not end in `/`, then the name. |
| Paths.BaseName | Code/Architecture/futils/data.py:249 | The base name is the `/`-free suffix after the last `/`. |
| Paths.BaseNameOfJoin | Code/Architecture/futils/data.py:237-250 | The pitch key `basename(join(wav_path, filename))` is `basename(filename)`, whatever the directory, and is the file name itself when that has no `/`. |
| Paths.FormatIndex | Code/Architecture/futils/data.py:137 | `format(index, '05')` is at least five characters long. |
| Paths.DecimalNoLeadingZero | Code/Architecture/futils/data.py:137 | The decimal digits of a number start with `0` exactly when the number is zero. |
| Paths.FormatIndexShape | Code/Architecture/futils/data.py:137 | The formatted index starts with `-` exactly when the index is negative, and every other character is a decimal digit. Its length is exactly the sign plus the larger of the pad width (5, or 4 after a `-`) and the digit count. A result wider than five characters has a non-zero first digit. |
| Paths.ClipFileName | Code/Architecture/futils/data.py:137 | A definition (its contract spells out the format; ClipFileNameRoundTrip and ClipFileNameInjective are the properties): the clip name is `clip_`, then the formatted index, then `.wav`. |
| Paths.ClipFileNameRoundTrip | Code/Architecture/futils/data.py:137 | The index can be read back out of `clip_{index:05}.wav`, negative indices included. |
| Paths.ClipFileNameInjective | Code/Architecture/futils/data.py:137 | Distinct row indices name distinct clip files. |
| Paths.ClipFileNameExamples | Code/Architecture/futils/data.py:137 | 7 gives `clip_00007.wav` and -3 gives `clip_-0003.wav` (zero fill after the sign). |
| LineParser.StemToFileName | Code/Architecture/futils/data.py:101 | A definition (its contract spells out the format; TaggedLineRoundTrip is the property): the name is the stem (the text `None` for a missing stem) followed by `.wav`. |
| LineParser.PhonemesOf | Code/Architecture/futils/data.py:91-96 | The arabic group wins and is converted, then phonemes is taken as it is, then buckwalter is converted. A failing conversion is an error, and no group at all is NoTranscriptionGroup. |
| LineParser.FileNameOf | Code/Architecture/futils/data.py:98-101 | Nothing iff neither group exists. A filename group is taken as it is; otherwise the filestem group plus `.wav`. |
| LineParser.ProcessLine | Code/Architecture/futils/data.py:84-103 | NoMatch iff the pattern did not match. NoTranscriptionGroup iff none of arabic/phonemes/buckwalter is a group. NoFileGroup iff the phoneme part succeeds and there is neither a filename nor a filestem group. Success iff the pattern matched, the phoneme part succeeded and a file group exists. On success the fields are exactly the phoneme part and the file part. |
| LineParser.TaggedLineRoundTrip | Code/Architecture/futils/data.py:91-101 | For every tagged (transcription, audio name) line, parsing returns the phonemes (converted for arabic or buckwalter, unchanged for phonemes) and the file name (stem + `.wav`), or the conversion failure. |
| LineParser.ArabicTakesPrecedence | Code/Architecture/futils/data.py:91-96 | With an arabic group, any phonemes or buckwalter group has no effect. |
| LineParser.PhonemesTakePrecedence | Code/Architecture/futils/data.py:93-96 | With a phonemes group, any buckwalter group has no effect. |
| LineParser.FileNameTakesPrecedence | Code/Architecture/futils/data.py:98-101 | With a filename group, any filestem group has no effect. |
| LineParser.DefaultPatternExample | Code/Architecture/futils/data.py:84-103 | The default pattern's groups for `"a.wav" "abc"` give phonemes `abc` and file `a.wav`. |
| Filtering.Collect | Code/Architecture/futils/data.py:131-159 | The load fails iff some item aborts. A successful load keeps at most one entry per item. |
| Filtering.CollectKeepsAcceptedInOrder | Code/Architecture/futils/data.py:228-255 | When no item aborts, the load keeps exactly the accepted items. They keep their original order and each holds the entry built from it. |
| Filtering.CollectAbortsAtFirstFailure | Code/Architecture/futils/data.py:228-255 | The load fails with the error of the first aborting item. |
| Filtering.AbortIsFinal | Code/Architecture/futils/data.py:228-255 | Once a prefix has aborted, later items do not change the outcome. |
| CsvDataset.ProcessCsvFile | Code/Architecture/futils/data.py:120-161 | Fails iff a required column is missing, naming the first missing one in the declared order. Otherwise it returns the kept entries of the rows. |
| CsvDataset.RowStep | Code/Architecture/futils/data.py:132-159 | A row never aborts the load. It is kept iff it tokenizes and its clip exists, and then as its ids with its clip path. |
| CsvDataset.KeptEntriesAreTheGoodRows | Code/Architecture/futils/data.py:130-161 | The kept entries are exactly the rows that tokenize and whose clip exists, each once, in CSV order, with the row's ids and path. |
| CsvDataset.MissingFileSkipped | Code/Architecture/futils/data.py:150-153 | In a three-row CSV whose second clip is missing, only rows 1 and 3 are kept. |
| TextDataset.ProcessTextFile | Code/Architecture/futils/data.py:223-255 | The loop's result is the collect-skip-abort fold of the line step over the lines; what that fold keeps and when it aborts is stated by the LineStep, KeptEntriesAreTheGoodLines and MissingPitchAborts rows. |
| TextDataset.LineStep | Code/Architecture/futils/data.py:229-253 | A line that does not parse is skipped. The line aborts with NoneFileName iff it parses with a `None` file name. It aborts with MissingPitch iff it is good (names an existing file and its phonemes tokenize) and the base name is absent from the dictionary; the error carries that base name. It is kept iff it is good and the base name is in the dictionary, and then exactly as its token ids, its joined path and the dictionary's contour. |
| TextDataset.KeptEntriesAreTheGoodLines | Code/Architecture/futils/data.py:223-255 | When no line aborts, the kept entries are exactly the good lines, each once, in file order, with the line's ids, path and contour. |
| TextDataset.LoadedEntriesExistWithPitch | Code/Architecture/futils/data.py:237-253 | Every kept entry's audio file exists, and its pitch is the dictionary's contour for its base name. |
| TextDataset.MissingPitchAborts | Code/Architecture/futils/data.py:249-250 | A valid line whose clip has no pitch contour aborts the whole load with that key. |
| DynBatch.TierFrom | Code/Architecture/futils/data.py:315-316 | The result is the first tier from i on that holds the length, or none exists. |
| DynBatch.TierIsUnique | Code/Architecture/futils/data.py:315-316 | With ascending bounds, a tier holding the length is the one `next` picks. |
| DynBatch.Tier | Code/Architecture/futils/data.py:315-316 | `next(...)` over the tiers: a found tier holds the length and no earlier tier does; no tier is found iff none holds it. |
| DynBatch.DefaultTiers | Code/Architecture/futils/data.py:293-302 | With the defaults, lengths below 1000, 1300, 1850 and 30000 get tiers 0 to 3; 30000 and above get no tier. |
| DynBatch.Assign | Code/Architecture/futils/data.py:314-317 | Succeeds iff every sample has a tier and that tier has a batch size. On success sample i gets its own tier's size, `b_sizes[tier(lens[i])]`, which is one of the configured sizes. |
| DynBatch.DefaultBatchSize | Code/Architecture/futils/data.py:293-302 | With the defaults, samples below 1000, 1300, 1850 and 30000 frames get batch sizes 10, 8, 6 and 4; a longer sample has no batch size. |
| DynBatch.DistinctKeys | Code/Architecture/futils/data.py:312 | The dictionary's keys are distinct and are exactly the configured batch sizes, ordered by each size's first occurrence in `b_sizes`. |
| DynBatch.FirstIndex | Code/Architecture/futils/data.py:312 | The position of a size's first occurrence: it holds the size and no earlier position does. |
| DynBatch.GroupOf | Code/Architecture/futils/data.py:314-317 | A group lists only samples whose batch size is the group's. |
| DynBatch.GroupsCoverIndices | Code/Architecture/futils/data.py:312-317 | The groups together hold every sample index exactly once. |
| DynBatch.CeilDivIsCeiling | Code/Architecture/futils/data.py:323 | The chunk count is the ceiling of the group size over the batch size. |
| DynBatch.ChunksConcat | Code/Architecture/futils/data.py:323 | The chunks of a group, laid end to end, are the group. |
| DynBatch.ChunksShape | Code/Architecture/futils/data.py:323 | There are ceil(len/bs) chunks, each non-empty and at most bs long, all but the last exactly bs. |
| DynBatch.ChunkAllFlattens | Code/Architecture/futils/data.py:321-324 | The batches, laid end to end, are the shuffled groups laid end to end. |
| DynBatch.EveryIndexInExactlyOneBatch | Code/Architecture/futils/data.py:308-326 | After a shuffle with positive sizes, the batches together hold every sample index exactly once. |
| DynBatch.BatchesAreGroupChunks | Code/Architecture/futils/data.py:321-324 | Every batch is a chunk of one group, holding between 1 and that group's batch size samples. |
| DynBatch.BatchCount | Code/Architecture/futils/data.py:321-329 | The number of batches depends only on the group sizes, not on the permutations. |
| DynBatch.ChunkList | Code/Architecture/futils/data.py:323 | The comprehension's result equals `Chunks` (empty for a negative size). |
| DynBatch.GroupByBatchSize | Code/Architecture/futils/data.py:312-317 | Fails with the first sample's tier or batch-size error. Otherwise each batch size maps to its samples in order. |
| DynBatch.BatchGroups | Code/Architecture/futils/data.py:319-324 | Fails iff a batch size is 0. Otherwise the batches are the chunks of some permutation of each group, in dictionary order. |
| DynBatch.Lengths | Code/Architecture/futils/data.py:310 | A definition (its contract spells out the comprehension; Assign and PartitionsSamples are the properties): one length per sample: the frame count of its pitch contour. |
| DynBatch.Chunks | Code/Architecture/futils/data.py:323 | With a negative size there are no chunks. Every chunk is non-empty and holds at most `bs` samples. |
| DynBatch.AssignFailureIsFinal | Code/Architecture/futils/data.py:314-317 | The first sample without a tier or batch size decides the error. |
| DynBatch.ShuffleOutcomeLength | Code/Architecture/futils/data.py:328-329 | After a successful shuffle the batch count equals `NumBatches` of the group sizes. |
| DynBatch.ShuffledBatchesIndexData | Code/Architecture/futils/data.py:319-326 | Every index in a shuffle's batches is a sample index. |
| DynBatch.DynBatchDataset.constructor | Code/Architecture/futils/data.py:285-305 | Stores the data, `[0] + max_lengths` and the batch sizes, with no batches yet. |
| DynBatch.DynBatchDataset.Create | Code/Architecture/futils/data.py:285-306 | Construction fails iff the first shuffle fails. Otherwise the sampler is valid and shuffled. |
| DynBatch.DynBatchDataset.Shuffle | Code/Architecture/futils/data.py:308-326 | On a tier, batch-size or zero-size error the batches are unchanged. Otherwise they are the chunks of a shuffle of the groups, and every batch indexes existing samples. |
| DynBatch.DynBatchDataset.PartitionsSamples | Code/Architecture/futils/data.py:308-326 | On a shuffled sampler with positive sizes, the batches laid end to end are a permutation of the sample indices. |
| DynBatch.DynBatchDataset.Length | Code/Architecture/futils/data.py:328-329 | After a shuffle with positive sizes, the length is the sum over groups of ceil(group size / batch size). |
| DynBatch.DynBatchDataset.GetItem | Code/Architecture/futils/data.py:331-334 | Fails iff the index is outside Python's range [-len, len). Otherwise it returns the samples of that batch (negative indices count from the end), in order. |
| Timestamps.StripTimestamp | Code/script.py:64 | The result is a suffix of the line. |
| Timestamps.UnchangedIffNoTimestamp | Code/script.py:64 | A line is unchanged iff it does not start with digits, `:`, digits. |
| Timestamps.TimestampPrefixLength | Code/script.py:64 | The matched length never exceeds the line, and a match holds at least three characters. |
| Timestamps.RemovedPrefixShape | Code/script.py:64 | A removed prefix is digits, `:`, a maximal run of digits and whitespace, and what remains does not start with whitespace. |
| Timestamps.SecondRunIsMaximal | Code/script.py:64 | `12:345 abc` loses all of `12:345 `, not a shorter match. |
| Timestamps.TimestampOnlyLine | Code/script.py:64 | `12:34\n` becomes the empty line. |
| Timestamps.ArabicIndicTimestamp | Code/script.py:64 | Arabic-Indic digits are digits: `١٢:٣٤ نص` becomes `نص`. |
| Timestamps.CleanLines | Code/script.py:59-65 | One cleaned line per input line, in order, each the stripped line. |

## Left out

- Audio is not modelled: decoding, resampling, the mel transform, log/clamp, per-frame L2 energy, the beta-binomial alignment prior, and the per-sample `__getitem__` methods of both datasets that compute them. These are floating-point library calls. `DynBatch.DynBatchDataset.GetItem` returns the stored entries the parent loader would read.
- The `text` module (grapheme-to-phoneme, Buckwalter and token conversions) is passed in as parameters. A raising conversion is `None`.
- Regular-expression search in `_process_line` is an input: the caller passes the match's `groupdict()`, or `None` for no match. The timestamp pattern is modelled directly.
- `pandas.read_csv`, `read_lines_from_file`, `torch.load`, `os.path.exists` and all file writing are inputs or parameters. Logging `print`s are dropped.
- `make_dataset_from_subdirs` (a directory walk) and the inference scripts are not part of this model.
- `np.random.shuffle` is an arbitrary permutation; its distribution is not modelled.
- Pitch.NormalizePitch: requires `std != 0`, because division by zero yields IEEE infinities/NaN that reals cannot represent. Reals replace single-precision floats throughout, so rounding is not modelled.
- Pitch contours are 1-D (the one row of `f0_dict[name][None]`).
- Collate.ArgSortDescending: fixes one tie order (stable). `torch.sort`'s order among equal lengths is unspecified, and the other contracts rely only on "permutation and non-increasing".
- Collate.CollateBatch: the output-length tensor `torch.LongTensor(n)` is uninitialised; the model relies on every row being written. A mel's rank-2 shape is an input invariant (`WellFormed`), and broadcasting covers only the row count.
- Paths.JoinPath: POSIX semantics only. Windows drive letters and backslashes, as in the default `wavpath`, are not modelled.
- Timestamps.IsDigit: Unicode decimal digits only from the Basic Multilingual Plane.
- CsvDataset: the `index` cell is an integer. Float or text cells format differently under `:05`, or raise, and are not modelled. The unused `text` and `Cleaned_Text` reads are dropped.
- DynBatch.DynBatchDataset: the shuffle's permutations are a ghost field, and concurrent use is not modelled.
