/** The configuration dict of make_data_split.py and what
    `add_fpaths_for_data_split_to_cfg` does to it: each file of an input group
    goes to every bucket (train / validate / rest) whose inclusive run-id range
    holds the file's run id, and every non-empty bucket list is split into
    `n_files_<bucket>` chunks and stored under `cfg['output_<bucket>'][group]`. */
module SplitConfig {
  import opened Wrappers
  import opened Seqs
  import opened OrderedDicts
  import opened Chunking

  datatype Bucket = Train | Validate | Rest {
    function Name(): string {
      match this
      case Train => "train"
      case Validate => "validate"
      case Rest => "rest"
    }
  }

  /** The order in which the source visits the buckets. */
  const Buckets: seq<Bucket> := [Train, Validate, Rest]

  function BucketIndex(b: Bucket): (j: nat)
    ensures j < |Buckets| && Buckets[j] == b
  {
    match b
    case Train => 0
    case Validate => 1
    case Rest => 2
  }

  /** `run_ids_<bucket> = [low, high]` of an input group. */
  datatype RunIdRange = RunIdRange(low: int, high: int)

  /** An input group's dict once the inventory has attached `fpaths` and the
      parallel `run_ids`; `ranges` holds the `run_ids_<bucket>` keys present. */
  datatype InputGroup = InputGroup(
    dir: string,
    fpaths: seq<string>,
    runIds: seq<int>,
    ranges: map<Bucket, RunIdRange>)

  /** `cfg['output_<bucket>']`: group name to that group's list of chunks. */
  type OutputChunks = ODict<string, seq<seq<string>>>

  /** A value of the top-level configuration dict. Only dicts (input groups and
      output tables) are told apart from one another; the rest is what the
      planner reads: integers, strings, and the `output_lists` path list. */
  datatype Entry =
    | IntValue(i: int)
    | StrValue(s: string)
    | OtherValue
    | GroupTable(group: InputGroup)
    | OutputTable(chunks: OutputChunks)
    | PathList(paths: seq<string>)
  {
    /** `type(value) == dict` */
    predicate IsDict() {
      GroupTable? || OutputTable?
    }
  }

  type Cfg = ODict<string, Entry>

  /** The exceptions the planner can raise. */
  datatype PlanError =
    | MissingKey(key: string)                 // KeyError
    | WrongType(key: string)                  // the value has the wrong Python type
    | RunIdIndex(group: string, index: nat)   // `run_ids[i]` past the end: IndexError
    | ZeroChunks(key: string)                 // `split(list, 0)`: ZeroDivisionError
    | NoInputGroups(key: string)              // `list(d.keys())[0]` of an empty dict
    | ChunkIndexOutOfRange(key: string)       // a group with fewer chunks than the first one
    | UnboundGroupKeys(key: string)           // the totals print reads `keys` before any bucket set it
    | StaleGroupKeys(key: string)             // the totals print reads a shorter `keys` of an earlier bucket

  ghost predicate WellFormed(cfg: Cfg) {
    && cfg.Valid()
    && forall k :: k in cfg.vals && cfg.vals[k].OutputTable? ==> cfg.vals[k].chunks.Valid()
  }

  function Lookup(cfg: Cfg, k: string): Option<Entry> {
    if k in cfg.vals then Some(cfg.vals[k]) else None
  }

  function NFilesKey(b: Bucket): string { "n_files_" + b.Name() }
  function OutputKey(b: Bucket): string { "output_" + b.Name() }

  /** The keys the planner writes are all different from one another and from
      the `n_files_<bucket>` keys it reads. */
  lemma KeysDistinct(b: Bucket, c: Bucket)
    ensures b != c ==> OutputKey(b) != OutputKey(c)
    ensures OutputKey(b) != NFilesKey(c)
  {
    assert OutputKey(b)[0] == 'o' && NFilesKey(c)[0] == 'n';
  }

  // ---------------------------------------------------------------------------
  // get_all_ip_group_keys

  /** `type(cfg[key]) == dict` */
  function IsDictKey(cfg: Cfg): string -> bool {
    k => k in cfg.vals && cfg.vals[k].IsDict()
  }

  /** The input-group keys: the keys whose value is a dict, in dict order. */
  function GroupKeys(cfg: Cfg): seq<string> {
    Filter(cfg.keys, IsDictKey(cfg))
  }

  /** A key is listed iff it is a key of the config whose value is a dict; the
      listed keys keep the config's order. */
  lemma GroupKeysSpec(cfg: Cfg, k: string, i: nat)
    requires cfg.Valid() && i <= |cfg.keys|
    ensures k in GroupKeys(cfg) <==> k in cfg.vals && cfg.vals[k].IsDict()
    ensures GroupKeys(cfg) == Filter(cfg.keys[..i], IsDictKey(cfg)) + Filter(cfg.keys[i..], IsDictKey(cfg))
  {
    FilterMembership(cfg.keys, IsDictKey(cfg), k);
    FilterConcat(cfg.keys[..i], cfg.keys[i..], IsDictKey(cfg));
    assert cfg.keys[..i] + cfg.keys[i..] == cfg.keys;
  }

  // ---------------------------------------------------------------------------
  // Bucket assignment (lines 238-246)

  /** `cfg[key]['run_ids_' + d][0] <= run_id <= cfg[key]['run_ids_' + d][1]`,
      tested only when the range key is present. */
  predicate InBucket(ranges: map<Bucket, RunIdRange>, b: Bucket, runId: int) {
    b in ranges && ranges[b].low <= runId <= ranges[b].high
  }

  /** `fpath_lists[b]` after the loop over the first `|fpaths|` files. */
  function BucketFiles(fpaths: seq<string>, runIds: seq<int>, ranges: map<Bucket, RunIdRange>, b: Bucket): seq<string>
    requires |fpaths| <= |runIds|
    decreases |fpaths|
  {
    if |fpaths| == 0 then []
    else
      var n := |fpaths| - 1;
      BucketFiles(fpaths[..n], runIds, ranges, b) + (if InBucket(ranges, b, runIds[n]) then [fpaths[n]] else [])
  }

  /** The indices below `n` whose run id lies in the range of bucket `b`, ascending. */
  function MatchingIndices(runIds: seq<int>, n: nat, ranges: map<Bucket, RunIdRange>, b: Bucket): (idx: seq<nat>)
    requires n <= |runIds|
    ensures forall j :: 0 <= j < |idx| ==> idx[j] < n && InBucket(ranges, b, runIds[idx[j]])
    ensures forall j, j' :: 0 <= j < j' < |idx| ==> idx[j] < idx[j']
    ensures forall i :: 0 <= i < n && InBucket(ranges, b, runIds[i]) ==> i in idx
    decreases n
  {
    if n == 0 then []
    else MatchingIndices(runIds, n - 1, ranges, b) + (if InBucket(ranges, b, runIds[n - 1]) then [n - 1] else [])
  }

  /** A bucket's list holds exactly the files whose run id lies in the bucket's
      inclusive range (none when the range key is absent), in file order. */
  lemma {:induction false} BucketFilesAreMatchingFiles(
    fpaths: seq<string>, runIds: seq<int>, ranges: map<Bucket, RunIdRange>, b: Bucket)
    requires |fpaths| <= |runIds|
    ensures var idx := MatchingIndices(runIds, |fpaths|, ranges, b);
            && |BucketFiles(fpaths, runIds, ranges, b)| == |idx|
            && forall j :: 0 <= j < |idx| ==> BucketFiles(fpaths, runIds, ranges, b)[j] == fpaths[idx[j]]
    decreases |fpaths|
  {
    if |fpaths| > 0 {
      var n := |fpaths| - 1;
      BucketFilesAreMatchingFiles(fpaths[..n], runIds, ranges, b);
    }
  }

  /** Buckets are not exclusive: a file lands in every bucket whose range holds
      its run id, and in none when no range does. */
  lemma FileInEveryMatchingBucket(
    fpaths: seq<string>, runIds: seq<int>, ranges: map<Bucket, RunIdRange>, i: nat, b: Bucket)
    requires |fpaths| <= |runIds| && i < |fpaths|
    ensures InBucket(ranges, b, runIds[i]) ==> fpaths[i] in BucketFiles(fpaths, runIds, ranges, b)
    ensures (forall c :: !InBucket(ranges, c, runIds[i])) ==> i !in MatchingIndices(runIds, |fpaths|, ranges, b)
  {
    var idx := MatchingIndices(runIds, |fpaths|, ranges, b);
    BucketFilesAreMatchingFiles(fpaths, runIds, ranges, b);
    if InBucket(ranges, b, runIds[i]) {
      var j :| 0 <= j < |idx| && idx[j] == i;
      assert BucketFiles(fpaths, runIds, ranges, b)[j] == fpaths[i];
    }
  }

  /** Taking one more file adds it to the buckets that hold its run id. */
  lemma BucketFilesStep(fpaths: seq<string>, runIds: seq<int>, ranges: map<Bucket, RunIdRange>, i: nat)
    requires i < |fpaths| && i < |runIds|
    ensures forall b :: BucketFiles(fpaths[..i + 1], runIds, ranges, b) ==
              BucketFiles(fpaths[..i], runIds, ranges, b) + (if InBucket(ranges, b, runIds[i]) then [fpaths[i]] else [])
  {
    assert fpaths[..i + 1][..i] == fpaths[..i];
  }

  function GroupBucketFiles(g: InputGroup, b: Bucket): seq<string>
    requires |g.fpaths| <= |g.runIds|
  {
    BucketFiles(g.fpaths, g.runIds, g.ranges, b)
  }

  // ---------------------------------------------------------------------------
  // Writing the chunked bucket lists into the config (lines 248-256)

  /** `cfg['output_<b>']` as it stands, or the fresh `dict()` the source creates. */
  function OutputTableOf(cfg: Cfg, b: Bucket): OutputChunks {
    if OutputKey(b) in cfg.vals && cfg.vals[OutputKey(b)].OutputTable? then cfg.vals[OutputKey(b)].chunks
    else Empty()
  }

  /** One iteration of the loop at line 248, for bucket `b` with list `files`. */
  function WriteBucket(cfg: Cfg, key: string, b: Bucket, files: seq<string>): Result<Cfg, PlanError> {
    if |files| == 0 then Success(cfg)
    else if NFilesKey(b) !in cfg.vals then Failure(MissingKey(NFilesKey(b)))
    else if !cfg.vals[NFilesKey(b)].IntValue? then Failure(WrongType(NFilesKey(b)))
    else
      match Split(files, cfg.vals[NFilesKey(b)].i)
      case Failure(_) => Failure(ZeroChunks(NFilesKey(b)))
      case Success(chunks) =>
        if OutputKey(b) in cfg.vals && !cfg.vals[OutputKey(b)].OutputTable? then Failure(WrongType(OutputKey(b)))
        else Success(cfg.Put(OutputKey(b), OutputTable(OutputTableOf(cfg, b).Put(key, chunks))))
  }

  /** The state of the config after a call, and the exception it raised, if any.
      Buckets written before an exception stay written. */
  datatype PlanOutcome = PlanOutcome(cfg: Cfg, err: Option<PlanError>)

  /** The loop at line 248 run over the first `j` buckets. */
  function WriteBuckets(cfg: Cfg, key: string, g: InputGroup, j: nat): PlanOutcome
    requires j <= |Buckets| && |g.fpaths| <= |g.runIds|
    decreases j
  {
    if j == 0 then PlanOutcome(cfg, None)
    else
      var prev := WriteBuckets(cfg, key, g, j - 1);
      if prev.err.Some? then prev
      else
        match WriteBucket(prev.cfg, key, Buckets[j - 1], GroupBucketFiles(g, Buckets[j - 1]))
        case Failure(e) => PlanOutcome(prev.cfg, Some(e))
        case Success(c) => PlanOutcome(c, None)
  }

  /** `add_fpaths_for_data_split_to_cfg(cfg, key)`. */
  function PlanGroup(cfg: Cfg, key: string): PlanOutcome {
    if key !in cfg.vals then PlanOutcome(cfg, Some(MissingKey(key)))
    else if !cfg.vals[key].GroupTable? then PlanOutcome(cfg, Some(WrongType(key)))
    else
      var g := cfg.vals[key].group;
      if |g.runIds| < |g.fpaths| then PlanOutcome(cfg, Some(RunIdIndex(key, |g.runIds|)))
      else WriteBuckets(cfg, key, g, |Buckets|)
  }

  /** Bucket `b` of group `g` can be written into `cfg` without an exception. */
  predicate BucketWritable(cfg: Cfg, g: InputGroup, b: Bucket)
    requires |g.fpaths| <= |g.runIds|
  {
    GroupBucketFiles(g, b) != [] ==>
      && NFilesKey(b) in cfg.vals
      && cfg.vals[NFilesKey(b)].IntValue?
      && cfg.vals[NFilesKey(b)].i != 0
      && (OutputKey(b) in cfg.vals ==> cfg.vals[OutputKey(b)].OutputTable?)
  }

  /** What `cfg['output_<b>']` holds once bucket `b` of group `key` is written. */
  function PlannedOutput(cfg: Cfg, key: string, g: InputGroup, b: Bucket): Option<Entry>
    requires |g.fpaths| <= |g.runIds| && BucketWritable(cfg, g, b)
  {
    var files := GroupBucketFiles(g, b);
    if files == [] then Lookup(cfg, OutputKey(b))
    else Some(OutputTable(OutputTableOf(cfg, b).Put(key, Split(files, cfg.vals[NFilesKey(b)].i).value)))
  }

  /** A bucket step keeps the config well formed. */
  lemma WriteBucketWellFormed(cfg: Cfg, key: string, b: Bucket, files: seq<string>)
    requires WellFormed(cfg)
    ensures WriteBucket(cfg, key, b, files).Success? ==> WellFormed(WriteBucket(cfg, key, b, files).value)
  {
    if WriteBucket(cfg, key, b, files).Success? && |files| > 0 {
      assert OutputTableOf(cfg, b).Valid();
    }
  }

  /** A bucket step changes `cfg['output_<b>']` and nothing else. */
  lemma WriteBucketEffect(cfg: Cfg, key: string, b: Bucket, g: InputGroup)
    requires WellFormed(cfg) && |g.fpaths| <= |g.runIds|
    ensures var r := WriteBucket(cfg, key, b, GroupBucketFiles(g, b));
            && (r.Success? <==> BucketWritable(cfg, g, b))
            && (r.Success? ==> WellFormed(r.value))
            && (r.Success? ==> Lookup(r.value, OutputKey(b)) == PlannedOutput(cfg, key, g, b))
            && (r.Success? ==> forall k :: k != OutputKey(b) ==> Lookup(r.value, k) == Lookup(cfg, k))
  {
    var r := WriteBucket(cfg, key, b, GroupBucketFiles(g, b));
    if r.Success? && GroupBucketFiles(g, b) != [] {
      assert OutputTableOf(cfg, b).Valid();
    }
  }

  /** Once a bucket step raised, the later steps do not run. */
  lemma {:induction false} WriteBucketsStopsAtError(cfg: Cfg, key: string, g: InputGroup, j: nat, j': nat)
    requires j <= j' <= |Buckets| && |g.fpaths| <= |g.runIds|
    requires WriteBuckets(cfg, key, g, j).err.Some?
    ensures WriteBuckets(cfg, key, g, j') == WriteBuckets(cfg, key, g, j)
    decreases j' - j
  {
    if j' > j {
      WriteBucketsStopsAtError(cfg, key, g, j, j' - 1);
    }
  }

  /** `k` is one of the three `output_<bucket>` keys. */
  predicate IsOutputKey(k: string) {
    k == OutputKey(Train) || k == OutputKey(Validate) || k == OutputKey(Rest)
  }

  /** Every entry other than the output tables is as in `cfg`. */
  ghost predicate OthersUnchanged(cfg: Cfg, out: Cfg) {
    forall k :: !IsOutputKey(k) ==> Lookup(out, k) == Lookup(cfg, k)
  }

  /** The output tables of the buckets from the `j`-th on are as in `cfg`. */
  predicate LaterUntouched(cfg: Cfg, out: Cfg, j: nat) {
    forall b :: BucketIndex(b) >= j ==> Lookup(out, OutputKey(b)) == Lookup(cfg, OutputKey(b))
  }

  /** The first `j` buckets were writable and their output tables are as planned. */
  predicate EarlierPlanned(cfg: Cfg, key: string, g: InputGroup, out: Cfg, j: nat)
    requires |g.fpaths| <= |g.runIds|
  {
    forall b :: BucketIndex(b) < j ==>
      BucketWritable(cfg, g, b) && Lookup(out, OutputKey(b)) == PlannedOutput(cfg, key, g, b)
  }

  lemma NotOutputKey(b: Bucket)
    ensures !IsOutputKey(NFilesKey(b))
  {
    KeysDistinct(Train, b);
    KeysDistinct(Validate, b);
    KeysDistinct(Rest, b);
  }

  /** One bucket step keeps the loop invariant. */
  lemma WriteBucketsStep(cfg: Cfg, key: string, g: InputGroup, j: nat)
    requires WellFormed(cfg) && 0 < j <= |Buckets| && |g.fpaths| <= |g.runIds|
    requires var prev := WriteBuckets(cfg, key, g, j - 1);
             && prev.err.None? && WellFormed(prev.cfg)
             && OthersUnchanged(cfg, prev.cfg) && LaterUntouched(cfg, prev.cfg, j - 1)
             && EarlierPlanned(cfg, key, g, prev.cfg, j - 1)
    ensures var out := WriteBuckets(cfg, key, g, j);
            && WellFormed(out.cfg)
            && OthersUnchanged(cfg, out.cfg)
            && LaterUntouched(cfg, out.cfg, j)
            && (out.err.None? <==> BucketWritable(cfg, g, Buckets[j - 1]))
            && (out.err.None? ==> EarlierPlanned(cfg, key, g, out.cfg, j))
  {
    var prev := WriteBuckets(cfg, key, g, j - 1);
    var b := Buckets[j - 1];
    assert BucketIndex(b) == j - 1;
    WriteBucketEffect(prev.cfg, key, b, g);
    // The step reads `n_files_<b>` and `output_<b>`, both still as in `cfg`.
    NotOutputKey(b);
    assert Lookup(prev.cfg, NFilesKey(b)) == Lookup(cfg, NFilesKey(b));
    assert Lookup(prev.cfg, OutputKey(b)) == Lookup(cfg, OutputKey(b));
    assert OutputTableOf(prev.cfg, b) == OutputTableOf(cfg, b);
    assert BucketWritable(prev.cfg, g, b) == BucketWritable(cfg, g, b);
    var out := WriteBuckets(cfg, key, g, j);
    if out.err.None? {
      assert PlannedOutput(prev.cfg, key, g, b) == PlannedOutput(cfg, key, g, b);
      forall c | c != b ensures Lookup(out.cfg, OutputKey(c)) == Lookup(prev.cfg, OutputKey(c)) {
        KeysDistinct(b, c);
      }
      forall k | !IsOutputKey(k) ensures Lookup(out.cfg, k) == Lookup(prev.cfg, k) {
      }
    }
  }

  /** The inductive invariant of the bucket loop: after `j` buckets, no exception
      iff each of them was writable; their output entries are as planned, the
      later buckets' are untouched, and so is every other entry. */
  lemma {:induction false} WriteBucketsEffect(cfg: Cfg, key: string, g: InputGroup, j: nat)
    requires WellFormed(cfg) && j <= |Buckets| && |g.fpaths| <= |g.runIds|
    ensures var out := WriteBuckets(cfg, key, g, j);
            && WellFormed(out.cfg)
            && OthersUnchanged(cfg, out.cfg)
            && LaterUntouched(cfg, out.cfg, j)
            && (out.err.None? <==> forall b :: BucketIndex(b) < j ==> BucketWritable(cfg, g, b))
            && (out.err.None? ==> EarlierPlanned(cfg, key, g, out.cfg, j))
    decreases j
  {
    if j > 0 {
      WriteBucketsEffect(cfg, key, g, j - 1);
      var prev := WriteBuckets(cfg, key, g, j - 1);
      if prev.err.None? {
        WriteBucketsStep(cfg, key, g, j);
        var out := WriteBuckets(cfg, key, g, j);
        if out.err.None? {
          forall b | BucketIndex(b) < j ensures BucketWritable(cfg, g, b) {
          }
        }
      } else {
        assert WriteBuckets(cfg, key, g, j) == prev;
        var b0 :| BucketIndex(b0) < j - 1 && !BucketWritable(cfg, g, b0);
        assert LaterUntouched(cfg, prev.cfg, j);
      }
    }
  }

  /** The group being planned must exist, be an input group, and carry a run id
      for every file; and every non-empty bucket must be writable. */
  predicate PlanGroupSucceeds(cfg: Cfg, key: string) {
    && key in cfg.vals
    && cfg.vals[key].GroupTable?
    && |cfg.vals[key].group.fpaths| <= |cfg.vals[key].group.runIds|
    && forall b :: BucketWritable(cfg, cfg.vals[key].group, b)
  }

  /** `add_fpaths_for_data_split_to_cfg` raises iff the group or one of its
      non-empty buckets cannot be written. Without an exception, an empty bucket
      writes nothing; a non-empty bucket sets `cfg['output_<b>'][key]` to the
      bucket's list split into `cfg['n_files_<b>']` chunks, keeping every other
      group's chunks in that table. Whatever happens, only the three output
      entries can change. */
  lemma PlanGroupSpec(cfg: Cfg, key: string)
    requires WellFormed(cfg)
    ensures WellFormed(PlanGroup(cfg, key).cfg)
    ensures PlanGroup(cfg, key).err.None? <==> PlanGroupSucceeds(cfg, key)
    ensures OthersUnchanged(cfg, PlanGroup(cfg, key).cfg)
    ensures PlanGroupSucceeds(cfg, key) ==>
              var g := cfg.vals[key].group;
              var out := PlanGroup(cfg, key).cfg;
              forall b :: BucketWritable(cfg, g, b) ==>
                && (GroupBucketFiles(g, b) == [] ==> Lookup(out, OutputKey(b)) == Lookup(cfg, OutputKey(b)))
                && (GroupBucketFiles(g, b) != [] ==>
                      && OutputKey(b) in out.vals
                      && out.vals[OutputKey(b)].OutputTable?
                      && key in out.vals[OutputKey(b)].chunks.vals
                      && out.vals[OutputKey(b)].chunks.vals[key]
                           == Split(GroupBucketFiles(g, b), cfg.vals[NFilesKey(b)].i).value
                      && forall k :: k != key ==>
                           (k in out.vals[OutputKey(b)].chunks.vals <==> k in OutputTableOf(cfg, b).vals)
                           && (k in OutputTableOf(cfg, b).vals ==>
                                 out.vals[OutputKey(b)].chunks.vals[k] == OutputTableOf(cfg, b).vals[k]))
  {
    if key in cfg.vals && cfg.vals[key].GroupTable? {
      var g := cfg.vals[key].group;
      if |g.fpaths| <= |g.runIds| {
        WriteBucketsEffect(cfg, key, g, |Buckets|);
      }
    }
  }

  /** Splitting cannot lose a file: the chunks written for a bucket concatenate
      back to the bucket's list, so each assigned file sits in exactly one
      chunk position, in order. */
  lemma PlanGroupCoversBucket(cfg: Cfg, key: string, b: Bucket)
    requires WellFormed(cfg) && PlanGroupSucceeds(cfg, key)
    requires BucketWritable(cfg, cfg.vals[key].group, b)
    requires GroupBucketFiles(cfg.vals[key].group, b) != [] && cfg.vals[NFilesKey(b)].i > 0
    ensures var out := PlanGroup(cfg, key).cfg;
            OutputKey(b) in out.vals && out.vals[OutputKey(b)].OutputTable? &&
            key in out.vals[OutputKey(b)].chunks.vals &&
            Flatten(out.vals[OutputKey(b)].chunks.vals[key]) == GroupBucketFiles(cfg.vals[key].group, b)
  {
    PlanGroupSpec(cfg, key);
    SplitConcat(GroupBucketFiles(cfg.vals[key].group, b), cfg.vals[NFilesKey(b)].i);
  }

  // ---------------------------------------------------------------------------
  // Chunk counts of the output tables

  /** The number of chunks `split` makes for `n_files_<b>`: `max(n, 0)`. */
  function ChunkCount(cfg: Cfg, b: Bucket): nat
    requires NFilesKey(b) in cfg.vals && cfg.vals[NFilesKey(b)].IntValue?
  {
    if cfg.vals[NFilesKey(b)].i > 0 then cfg.vals[NFilesKey(b)].i else 0
  }

  /** Every group in `cfg['output_<b>']` has as many chunks as `n_files_<b>` asks
      for. The list-file writer relies on this (it takes the first group's
      chunk count for all groups); the source never checks it. */
  ghost predicate UniformOutputs(cfg: Cfg) {
    forall b :: OutputKey(b) in cfg.vals && cfg.vals[OutputKey(b)].OutputTable? ==>
      && NFilesKey(b) in cfg.vals
      && cfg.vals[NFilesKey(b)].IntValue?
      && forall k :: k in cfg.vals[OutputKey(b)].chunks.vals ==>
           |cfg.vals[OutputKey(b)].chunks.vals[k]| == ChunkCount(cfg, b)
  }

  /** Planning a group keeps the chunk counts uniform, also when it raises
      part-way: every chunk list it writes has `max(n_files_<b>, 0)` chunks. */
  lemma PlanGroupKeepsUniform(cfg: Cfg, key: string)
    requires WellFormed(cfg) && UniformOutputs(cfg)
    ensures UniformOutputs(PlanGroup(cfg, key).cfg)
  {
    if key in cfg.vals && cfg.vals[key].GroupTable? {
      var g := cfg.vals[key].group;
      if |g.fpaths| <= |g.runIds| {
        UniformAfterBuckets(cfg, key, g, |Buckets|);
      }
    }
  }

  lemma {:induction false} UniformAfterBuckets(cfg: Cfg, key: string, g: InputGroup, j: nat)
    requires WellFormed(cfg) && UniformOutputs(cfg) && j <= |Buckets| && |g.fpaths| <= |g.runIds|
    ensures UniformOutputs(WriteBuckets(cfg, key, g, j).cfg)
    decreases j
  {
    if j > 0 {
      UniformAfterBuckets(cfg, key, g, j - 1);
      WriteBucketsEffect(cfg, key, g, j - 1);
      var prev := WriteBuckets(cfg, key, g, j - 1);
      if prev.err.None? {
        UniformAfterWriteBucket(prev.cfg, key, Buckets[j - 1], g);
      }
    }
  }

  lemma UniformAfterWriteBucket(cfg: Cfg, key: string, b: Bucket, g: InputGroup)
    requires WellFormed(cfg) && UniformOutputs(cfg) && |g.fpaths| <= |g.runIds|
    ensures var r := WriteBucket(cfg, key, b, GroupBucketFiles(g, b));
            r.Success? ==> UniformOutputs(r.value)
  {
    WriteBucketEffect(cfg, key, b, g);
    var r := WriteBucket(cfg, key, b, GroupBucketFiles(g, b));
    if r.Success? && GroupBucketFiles(g, b) != [] {
      var out := r.value;
      forall c | OutputKey(c) in out.vals && out.vals[OutputKey(c)].OutputTable?
        ensures NFilesKey(c) in out.vals && out.vals[NFilesKey(c)].IntValue?
        ensures forall k :: k in out.vals[OutputKey(c)].chunks.vals ==>
                  |out.vals[OutputKey(c)].chunks.vals[k]| == ChunkCount(out, c)
      {
        KeysDistinct(b, c);
        assert Lookup(out, NFilesKey(c)) == Lookup(cfg, NFilesKey(c));
        if c == b {
          var n := cfg.vals[NFilesKey(b)].i;
          var chunks := Split(GroupBucketFiles(g, b), n).value;
          SplitCount(GroupBucketFiles(g, b), n);
          assert out.vals[OutputKey(b)].chunks == OutputTableOf(cfg, b).Put(key, chunks);
        } else {
          assert Lookup(out, OutputKey(c)) == Lookup(cfg, OutputKey(c));
        }
      }
    }
  }

  lemma SplitCount<T>(a: seq<T>, n: int)
    requires n != 0
    ensures |Split(a, n).value| == if n > 0 then n else 0
  {
  }
}
