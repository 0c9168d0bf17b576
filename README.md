# OrcaSong data-split planner and event extractor in Dafny

This project models two I/O-free parts of OrcaSong, the KM3NeT tool that turns
simulated detector events into image-like training data.

**The data-split planner** (`orcasong/tools/make_data_split.py`) does five things:

- It finds the input groups of a configuration dict.
- It lists each group's `.h5` files.
- It takes an inventory of the group's events and run ids.
- It assigns every file to the train / validate / rest buckets by inclusive
  run-id ranges. It splits each non-empty bucket into `n_files_<bucket>`
  near-equal chunks and stores them in the config.
- It lays out the `.list` files: list file `i` of a bucket holds chunk `i` of
  every group, in table order. The path of every list file is appended to
  `cfg['output_lists']`.

**The event extractor** (`orcasong/file_to_hits.py`) reads one decoded event
record and builds two things:

- the hit matrix: one row `[pos_x, pos_y, pos_z, time, triggered]` per hit,
  with an optional `channel_id` column;
- the track vector. Its layout depends on the file's particle type
  (`undefined`, `muon` or `neutrino`) and may end with a production id.

Files:

- `wrappers.dfy`: `Option` and `Result`. A Python exception becomes a `Failure`
  whose error names the cause.
- `seqs.dfy`: flattening, filtering and sums over sequences.
- `ordered_dicts.dfy`: a dict that keeps Python's insertion order (a key
  sequence plus a map).
- `chunking.dfy`: `split(a, n)`.
- `inventory.dfy`: the `.h5` filter and the inventory loop.
- `split_config.dfy`: the config dict and the functional specification of
  bucket assignment.
- `list_layout.dfy`: the functional specification of `make_dsplit_list_files`.
- `data_split.dfy`: the class `Config`. It holds the config dict and updates it
  in place. Each method is proved equal to the specification function above.
- `file_to_hits.dfy`: the extractor, as pure functions.

## Model

| member | source | states |
|---|---|---|
| Chunking.Split | orcasong/tools/make_data_split.py:171-191 | `n == 0` fails, as `divmod` raises ZeroDivisionError. Otherwise exactly `n` chunks come back, or none when `n` is negative. |
| Chunking.SplitChunkSize | orcasong/tools/make_data_split.py:189-190 | With `k, m = divmod(len(a), n)`, chunk `i` has `k + 1` elements when `i < m` and `k` otherwise. |
| Chunking.SplitBalanced | orcasong/tools/make_data_split.py:189-190 | Chunk sizes differ by at most one, and the larger chunks come first. |
| Chunking.SplitPrefix | orcasong/tools/make_data_split.py:189-190 | The first `j` chunks, concatenated, are the prefix of `a` up to where chunk `j` starts. |
| Chunking.SplitConcat | orcasong/tools/make_data_split.py:189-191 | Concatenating the chunks in order gives back exactly `a`. Their lengths sum to `len(a)`. |
| Chunking.SplitNegativeDropsAll | orcasong/tools/make_data_split.py:189-191 | A negative chunk count returns no chunks, so every element is dropped. |
| Inventory.GetH5Filepaths | orcasong/tools/make_data_split.py:89-92 | Returns exactly the listed names ending in `.h5`, in listing order, each prefixed by `dirpath + '/'`. |
| Inventory.GetNumberOfEvtsAndRunIds | orcasong/tools/make_data_split.py:151-168 | Succeeds iff the list is non-empty and every file is readable. The total is the sum of per-file row counts. The run ids are parallel to the file list (the first row of each file). The mean is total / number of files. The first unreadable file raises its error, and an empty list fails. |
| SplitConfig.GroupKeysSpec | orcasong/tools/make_data_split.py:66-71 | A key is an input-group key iff its value is a dict. The result is in dict order and is the concatenation of the filter over any prefix and the matching suffix. |
| SplitConfig.BucketFilesAreMatchingFiles | orcasong/tools/make_data_split.py:239-246 | Bucket `b`'s list is the files whose run id lies in `b`'s inclusive range, in file order (indexed by the ascending matching indices). |
| SplitConfig.FileInEveryMatchingBucket | orcasong/tools/make_data_split.py:243-246 | Buckets are not exclusive: a file goes to every bucket whose range holds its run id, and to none if no range matches. |
| SplitConfig.WriteBucketEffect | orcasong/tools/make_data_split.py:248-256 | One bucket succeeds iff its inputs are usable. On success it sets `output_<b>` to the planned table, keeps the config well formed, and changes no other key. |
| SplitConfig.WriteBucketsEffect | orcasong/tools/make_data_split.py:248-256 | After the first `j` buckets: no key other than an output table changes, later tables are untouched, and earlier tables hold their planned value. Success holds iff each of those buckets is writable. |
| SplitConfig.PlanGroupSpec | orcasong/tools/make_data_split.py:224-256 | `add_fpaths_for_data_split_to_cfg` succeeds iff the group exists, is a dict, has enough run ids and every bucket is writable. An empty bucket leaves `output_<b>` as it was. A non-empty bucket sets `cfg['output_<b>'][key] = split(files, n_files_<b>)`, and other groups' entries are unchanged. |
| SplitConfig.PlanGroupCoversBucket | orcasong/tools/make_data_split.py:248-256 | After planning, the stored chunks of a non-empty bucket flatten back to exactly that bucket's file list. |
| SplitConfig.PlanGroupKeepsUniform | orcasong/tools/make_data_split.py:248-256 | If every output table's groups have `n_files_<b>` chunks before planning, they still do after. |
| ListLayout.ListFileLinesMembership | orcasong/tools/make_data_split.py:303-310 | A path is a line of list file `i` iff it is in chunk `i` of some group. |
| ListLayout.ListFileLinesOrder | orcasong/tools/make_data_split.py:303-310 | In list file `i`, group `j`'s chunk `i` comes after the chunk `i` of every earlier group and before those of every later group. |
| ListLayout.ChunkEventsIsFlatCount | orcasong/tools/make_data_split.py:307-309 | Counting chunk by chunk gives the count of the concatenated files. |
| ListLayout.WriteBucketListsCount | orcasong/tools/make_data_split.py:280-310 | A bucket writes as many list files as the first group has chunks, after the earlier files. Its report has one total per group. The total of a group with the first group's chunk count is the event count of all its files. |
| ListLayout.WriteListsKeepsTables | orcasong/tools/make_data_split.py:280-310 | Writing list files changes no config key except `output_lists`. |
| ListLayout.EmptyTrainTableRaises | orcasong/tools/make_data_split.py:280-314 | When the train table's first group has no chunk, no list file is written, so the totals print reads `keys` before any bucket assigned it. The writer fails there (UnboundLocalError), and the validation and rest buckets are not written. |
| ListLayout.MakeListFilesUniform | orcasong/tools/make_data_split.py:287-307 | When every group of an output table has the same number of chunks (as planning produces), the `[i]` index at line 307 never goes out of range. |
| DataSplit.CountChunk | orcasong/tools/make_data_split.py:307-309 | The recount loop returns the sum of the per-file counts of a chunk. |
| DataSplit.CollectListFile | orcasong/tools/make_data_split.py:303-310 | Succeeds iff every group has a chunk `i`. The lines are the layout of list file `i`, and each group's total grows by its chunk's event count. |
| DataSplit.AddToBuckets | orcasong/tools/make_data_split.py:243-246 | A file path is appended to exactly the buckets whose range holds its run id. The other lists are unchanged. |
| DataSplit.AssignFiles | orcasong/tools/make_data_split.py:238-246 | Fails (IndexError) iff `run_ids` is shorter than `fpaths`. Otherwise every bucket's list is that bucket's matching files in order. |
| DataSplit.Config.GetAllIpGroupKeys | orcasong/tools/make_data_split.py:49-71 | The loop returns the dict-valued keys in dict order. |
| DataSplit.Config.AddFpathsForDataSplitToCfg | orcasong/tools/make_data_split.py:224-256 | The in-place update leaves the config equal to the planned config, with the same error, and keeps it well formed. |
| DataSplit.Config.WriteBucketInPlace | orcasong/tools/make_data_split.py:248-256 | One bucket's in-place write matches the single-bucket specification. The inner dict is created when absent. The config is unchanged on failure. |
| DataSplit.Config.AppendOutputList | orcasong/tools/make_data_split.py:299-301 | `output_lists` is created empty when absent, then extended by exactly one path. Nothing else changes. |
| DataSplit.Config.WriteListFile | orcasong/tools/make_data_split.py:295-310 | One list file: its path is appended, and its lines and the group totals advance by chunk `i`. It fails iff a group lacks chunk `i`. |
| DataSplit.Config.WriteListFiles | orcasong/tools/make_data_split.py:295-310 | The `n` list files of one bucket. It succeeds iff every group has `n` chunks. On success the paths, contents and totals are the specified ones. |
| DataSplit.Config.WriteBucketListFiles | orcasong/tools/make_data_split.py:280-314 | One bucket's writer matches the specification: the same success or error, and on success the same files, reports, config and `keys` for the totals print. A bucket without chunks fails when `keys` is unbound (UnboundLocalError) or shorter than its table (IndexError). |
| DataSplit.Config.MakeDsplitListFiles | orcasong/tools/make_data_split.py:259-316 | The whole writer returns the specified result. On success the config is the specified one. |
| FileToHits.PrimaryTrackIndex | orcasong/file_to_hits.py:10-29 | Returns the lowest index whose Bjorken-y is non-zero. Returns `None` (IndexError) iff no track has non-zero Bjorken-y. |
| FileToHits.TriggeredTimes | orcasong/file_to_hits.py:48 | Keeps only times of hits flagged exactly 1. It is empty iff no hit is flagged 1. |
| FileToHits.TriggeredIndices | orcasong/file_to_hits.py:48 | The mask `triggered == 1` as indices: each index is flagged 1, and they ascend. |
| FileToHits.TriggeredIndicesComplete | orcasong/file_to_hits.py:48 | No index flagged 1 is missing from the mask. |
| FileToHits.TriggeredTimesAreFlaggedTimes | orcasong/file_to_hits.py:48 | `hits_time[triggered == 1]` is exactly the times at the flagged indices, one per index, in hit order. |
| FileToHits.TimeResidual | orcasong/file_to_hits.py:32-52 | NaN iff no hit has `triggered == 1`; it does not raise. |
| FileToHits.TimeResidualIsMean | orcasong/file_to_hits.py:48-50 | A finite residual is the mean of the times at the indices flagged 1 (there is at least one) minus the interaction time. |
| FileToHits.TimeResidualBounds | orcasong/file_to_hits.py:48-50 | A finite residual lies between the earliest and the latest triggered time, each minus the interaction time. |
| FileToHits.SelectHits | orcasong/file_to_hits.py:83-86 | It fails for lack of a geometry iff `Hits` lacks positions and no geometry is given. It fails for lack of positions iff `Hits` has them but the selected `McHits` does not. No other failure occurs. On success the hits are those of the selected table, passed through the geometry iff `Hits` lacks positions. |
| FileToHits.CalibrationIgnoresSelectedFlag | orcasong/file_to_hits.py:83-86 | When `Hits` lacks positions, the flag of the selected `McHits` has no effect on the result, and without a geometry the call fails even for a calibrated `McHits`. |
| FileToHits.CalibratedHitsIgnoreGeo | orcasong/file_to_hits.py:85-86 | When `Hits` has positions, the geometry is never used: any two geometries give the same result. |
| FileToHits.KeptHits | orcasong/file_to_hits.py:88-89 | With the cut on, every kept hit has a truthy triggered flag. With the cut off, all hits are kept. |
| FileToHits.KeptHitsMembership | orcasong/file_to_hits.py:88-89 | A hit survives iff it is in the table and, with the cut on, its triggered flag is non-zero. |
| FileToHits.HitRow | orcasong/file_to_hits.py:92-100 | A row has 5 or 6 entries, with time at index 3 and the triggered flag at index 4. |
| FileToHits.GetHits | orcasong/file_to_hits.py:55-102 | Fails exactly when table selection fails. Otherwise there is one row per surviving hit, in order. Each row has 6 columns iff `(do4d[0] and do4d[1] == 'channel_id') or do4d[1] == 'xzt-c'`, else 5. With the cut on, every row's triggered column is non-zero. |
| FileToHits.TriggeredCutKeepsTriggeredTimes | orcasong/file_to_hits.py:48-89 | Cutting to triggered hits keeps every row flagged 1, in order. |
| FileToHits.RunId | orcasong/file_to_hits.py:135-138 | The run id is missing iff `Header` is absent and `RawHeader[0][0]` does not exist. That is its only error. |
| FileToHits.RunIdPrefersHeader | orcasong/file_to_hits.py:135-138 | With `Header` present, the track vector does not depend on `RawHeader`, and its run-id entry is the header's run id. |
| FileToHits.RunIdFallsBackToRawHeader | orcasong/file_to_hits.py:135-138 | Without `Header`, the run-id entry of the track vector is `RawHeader[0][0]`, and no other part of `RawHeader` affects the result. |
| FileToHits.MissingRunIdIff | orcasong/file_to_hits.py:133-138 | Extraction fails for lack of a run id iff the event id exists, `Header` is absent and `RawHeader[0][0]` does not exist. |
| FileToHits.TruthTrack | orcasong/file_to_hits.py:165-166 | The muon and neutrino vectors have 14 entries, with the event id first, the run id at index 9 and the muon count or time residual last. |
| FileToHits.GetTracks | orcasong/file_to_hits.py:105-192 | Succeeds iff the event id and run id exist and the type is `undefined`, `muon` with at least two tracks, or `neutrino` with some non-zero Bjorken-y. Any other type raises ValueError. |
| FileToHits.TrackLayout | orcasong/file_to_hits.py:134-188 | The length is 3 for `undefined` and 14 otherwise, plus 1 with a production id. The event id is first, the run id is at index 1 or 9, and the production id is last. |
| FileToHits.UndefinedTrack | orcasong/file_to_hits.py:142-144 | `undefined` gives `[event_id, run_id, 0]`. |
| FileToHits.MuonTrackFields | orcasong/file_to_hits.py:146-166 | For `muon`, the truth fields come from track row 1. The energy is the sum over all rows, and the last entry is the number of rows minus one. |
| FileToHits.NeutrinoTrackFields | orcasong/file_to_hits.py:168-183 | For `neutrino`, every truth field and the vertex come from the primary track. The last entry is the time residual of the hit matrix against that track's time. |
| FileToHits.GetEventData | orcasong/file_to_hits.py:195-238 | The hit matrix, then the track vector built from that same matrix. The first error raised is the one returned. |
| FileToHits.TriggeredCutKeepsResidual | orcasong/file_to_hits.py:88-180 | For a neutrino file, the triggered cut changes neither whether extraction succeeds nor the track vector. |

## Left out

- File-system and HDF5 I/O are not modelled. Directory listings, file contents
  (the `run_id` column of dataset `y`) and the per-file event recount are
  parameters. The `os.makedirs` call and the writes of `.list` files are replaced
  by returning the written files as values.
- The printed text, `toml`/`docopt` parsing and `main` are left out. The
  bucket reports keep the totals that would be printed, and the exceptions the
  totals print raises (lines 313-314) are modelled.
- Inventory.GetH5Filepaths: the `random.Random(42).shuffle` of the file list is
  a library PRNG. The model returns the filtered list in listing order; the
  source returns a permutation of it.
- Chunking.Split: only a count of 0 raises (ZeroDivisionError at
  `make_data_split.py:189`). A negative count makes `range(n)` empty, and
  `split` returns `[]`.
- DataSplit.Config.MakeDsplitListFiles, DataSplit.Config.WriteBucketListFiles:
  on failure, only well-formedness of the config is promised. Before the error
  the source has already appended some paths and written some files, and that
  partial state is not specified.
- DataSplit.Config.WriteListFiles: each list file's lines are appended a whole
  chunk at a time rather than line by line. The contents are the same.
- A config value of a wrong Python type becomes a `WrongType` error. This
  includes a toml table named `output_<bucket>`, which the source would treat
  as a dict and write into.
- A `run_ids_<bucket>` value with fewer than two entries is not modelled. A
  range is always `[low, high]`.
- FileToHits.SelectHits: the calibration service `geo.apply` is a parameter
  function. Line 85 decides calibration from `Hits` even when `McHits` is read.
- FileToHits.GetTracks: the float32 cast of the run id and float64 rounding are
  not modelled. Numbers are Dafny reals, and NaN is a separate value.
- FileToHits.MuonTrackFields, FileToHits.GetTracks: lines 161-163 take the
  vertex weights from `event_blob[4]`, an integer index into the string-keyed
  event blob. As written, that raises KeyError, so every `muon` event fails
  there. The model instead applies the evident intent: the energy-weighted
  average of the vertices of rows 1 onward. This average is a parameter
  function, and float averaging is outside the model. Every `muon` success
  that `GetTracks` reports is therefore the intended behaviour, not the text
  as written.
- FileToHits.KeptHits, FileToHits.GetHits, FileToHits.TriggeredCutKeepsResidual:
  line 89 subscripts `hits.__array__`, which is a method. As written, that
  raises TypeError whenever `data_cuts['triggered']` is true. The model
  applies the evident mask `hits[hits.triggered.astype(bool)]` instead. The
  claim that the cut keeps extraction's success and track vector is about
  that mask. km3pipe's `Table` is not part of this model.
- FileToHits.GetTracks: the event hits passed in must have at least five
  columns, as every matrix from `GetHits` has. A malformed matrix (IndexError
  in the source) is excluded by the precondition.
