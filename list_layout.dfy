/** What `make_dsplit_list_files` writes: for every bucket with an output table,
    as many list files as the table's first group has chunks; list file `i`
    holds, group by group in table order, the paths of that group's chunk `i`,
    one per line. Alongside, the events of every group's written files are
    counted again with a given per-file count (the source re-opens each file),
    and every list file's path is appended to `cfg['output_lists']`. */
module ListLayout {
  import opened Wrappers
  import opened Seqs
  import opened OrderedDicts
  import opened SplitConfig

  /** One written list file: its path and its lines (without the newlines). */
  datatype ListFile = ListFile(path: string, lines: seq<string>)

  /** The per-group event totals printed for one bucket, in table order. */
  datatype BucketReport = BucketReport(bucket: Bucket, groupEvents: seq<nat>)

  /**
   * The configuration after the writer, the files it wrote, its reports, and
   * the group names the totals print reads: the local `keys`, which only the
   * file-writing loop of a bucket with at least one chunk assigns, and which
   * is unbound until then.
   */
  datatype WriteState = WriteState(cfg: Cfg, files: seq<ListFile>, reports: seq<BucketReport>,
                                   printKeys: Option<seq<string>>)

  /** `<folder>/conc_list_files/<name>_<bucket>_<i>.txt` */
  function ListFilePath(folder: string, name: string, b: Bucket, i: nat): string {
    folder + "/conc_list_files/" + name + "_" + b.Name() + "_" + NatToString(i) + ".txt"
  }

  /** The paths of the first `n` list files of bucket `b`. */
  function ListPaths(folder: string, name: string, b: Bucket, n: nat): (paths: seq<string>)
    ensures |paths| == n
    ensures forall i :: 0 <= i < n ==> paths[i] == ListFilePath(folder, name, b, i)
  {
    seq(n, i requires 0 <= i < n => ListFilePath(folder, name, b, i))
  }

  lemma ListPathsSnoc(lists: seq<string>, folder: string, name: string, b: Bucket, i: nat)
    ensures lists + ListPaths(folder, name, b, i + 1) == lists + ListPaths(folder, name, b, i) + [ListFilePath(folder, name, b, i)]
  {
    assert ListPaths(folder, name, b, i + 1) == ListPaths(folder, name, b, i) + [ListFilePath(folder, name, b, i)];
  }

  /** Every group of the table has a chunk number `i`. */
  predicate HasChunk(table: OutputChunks, i: nat) {
    forall k :: k in table.keys ==> k in table.vals && i < |table.vals[k]|
  }

  /** Chunk `i` of every group, in table order. */
  function ChunkColumn(table: OutputChunks, i: nat): (col: seq<seq<string>>)
    requires HasChunk(table, i)
    ensures |col| == |table.keys|
  {
    seq(|table.keys|, j requires 0 <= j < |table.keys| => table.vals[table.keys[j]][i])
  }

  /** The lines of list file `i`. */
  function ListFileLines(table: OutputChunks, i: nat): seq<string>
    requires HasChunk(table, i)
  {
    Flatten(ChunkColumn(table, i))
  }

  /** Events in a list of files, by the given per-file count. */
  function EventCount(files: seq<string>, count: string -> nat): nat
    decreases |files|
  {
    if |files| == 0 then 0 else EventCount(files[..|files| - 1], count) + count(files[|files| - 1])
  }

  /** Events in a list of chunks: what `final_number_of_events[j]` sums up. */
  function ChunkEvents(chunks: seq<seq<string>>, count: string -> nat): nat
    decreases |chunks|
  {
    if |chunks| == 0 then 0
    else ChunkEvents(chunks[..|chunks| - 1], count) + EventCount(chunks[|chunks| - 1], count)
  }

  function GetStr(cfg: Cfg, k: string): Result<string, PlanError> {
    if k !in cfg.vals then Failure(MissingKey(k))
    else if !cfg.vals[k].StrValue? then Failure(WrongType(k))
    else Success(cfg.vals[k].s)
  }

  /** `cfg['output_lists']`, or the empty list the source creates when absent. */
  function OutputListsOf(cfg: Cfg): Result<seq<string>, PlanError> {
    if "output_lists" !in cfg.vals then Success([])
    else if !cfg.vals["output_lists"].PathList? then Failure(WrongType("output_lists"))
    else Success(cfg.vals["output_lists"].paths)
  }

  /** The list files of bucket `b`, given the folder read at the start. */
  function WriteBucketLists(s: WriteState, folder: string, b: Bucket, count: string -> nat): (r: Result<WriteState, PlanError>)
    requires WellFormed(s.cfg)
    ensures r.Success? ==> WellFormed(r.value.cfg)
  {
    var okey := OutputKey(b);
    if okey !in s.cfg.vals then Success(s)
    else if !s.cfg.vals[okey].OutputTable? then Failure(WrongType(okey))
    else
      var table := s.cfg.vals[okey].chunks;
      if |table.keys| == 0 then Failure(NoInputGroups(okey))
      else
        var n := |table.vals[table.keys[0]]|;
        if n == 0 then
          // no list file is written, so the totals print reads the `keys` left by an earlier bucket
          match s.printKeys
          case None => Failure(UnboundGroupKeys(okey))
          case Some(keys) =>
            if |keys| < |table.keys| then Failure(StaleGroupKeys(okey))
            else Success(WriteState(s.cfg, s.files, s.reports + [BucketReport(b, seq(|table.keys|, j => 0))], s.printKeys))
        else
          match GetStr(s.cfg, "output_file_name")
          case Failure(e) => Failure(e)
          case Success(name) =>
            match OutputListsOf(s.cfg)
            case Failure(e) => Failure(e)
            case Success(lists) =>
              if !HasChunk(table, n - 1) then Failure(ChunkIndexOutOfRange(okey))
              else
                Success(WriteState(
                  s.cfg.Put("output_lists", PathList(lists + ListPaths(folder, name, b, n))),
                  s.files + ListFiles(folder, name, b, table, n),
                  s.reports + [BucketReport(b, ChunkTotals(table, count, n))],
                  Some(table.keys)))
  }

  /** A group short of chunk `i` is short of every later chunk too. */
  lemma NoChunkBeyond(table: OutputChunks, i: nat, j: nat)
    requires i <= j && !HasChunk(table, i)
    ensures !HasChunk(table, j)
  {
  }

  /** The first `n` list files of bucket `b`: file `i` holds chunk `i` of
      every group. */
  function ListFiles(folder: string, name: string, b: Bucket, table: OutputChunks, n: nat): (files: seq<ListFile>)
    requires n == 0 || HasChunk(table, n - 1)
    ensures |files| == n
    decreases n
  {
    if n == 0 then []
    else ListFiles(folder, name, b, table, n - 1) + [ListFile(ListFilePath(folder, name, b, n - 1), ListFileLines(table, n - 1))]
  }

  /** `final_number_of_events` once the first `n` list files are written. */
  function ChunkTotals(table: OutputChunks, count: string -> nat, n: nat): (totals: seq<nat>)
    requires table.Valid() && (n == 0 || HasChunk(table, n - 1))
    ensures |totals| == |table.keys|
  {
    seq(|table.keys|, j requires 0 <= j < |table.keys| => ChunkEvents(table.vals[table.keys[j]][..n], count))
  }

  /** The bucket loop of the writer over the first `j` buckets. */
  function WriteListsUpTo(cfg: Cfg, folder: string, count: string -> nat, j: nat): (r: Result<WriteState, PlanError>)
    requires WellFormed(cfg) && j <= |Buckets|
    ensures r.Success? ==> WellFormed(r.value.cfg)
    decreases j
  {
    if j == 0 then Success(WriteState(cfg, [], [], None))
    else
      match WriteListsUpTo(cfg, folder, count, j - 1)
      case Failure(e) => Failure(e)
      case Success(s) => WriteBucketLists(s, folder, Buckets[j - 1], count)
  }

  /** `make_dsplit_list_files(cfg)`: the folder is read first (line 270). */
  function MakeListFiles(cfg: Cfg, count: string -> nat): Result<WriteState, PlanError>
    requires WellFormed(cfg)
  {
    match GetStr(cfg, "output_file_folder")
    case Failure(e) => Failure(e)
    case Success(folder) => WriteListsUpTo(cfg, folder, count, |Buckets|)
  }

  // ---------------------------------------------------------------------------
  // Properties

  /** A path is a line of list file `i` iff it is in chunk `i` of some group. */
  lemma ListFileLinesMembership(table: OutputChunks, i: nat, x: string)
    requires HasChunk(table, i)
    ensures x in ListFileLines(table, i) <==>
              exists j :: 0 <= j < |table.keys| && x in table.vals[table.keys[j]][i]
  {
    var col := ChunkColumn(table, i);
    FlattenMembership(col, x);
    if x in ListFileLines(table, i) {
      var j :| 0 <= j < |col| && x in col[j];
      assert x in table.vals[table.keys[j]][i];
    }
    if exists j :: 0 <= j < |table.keys| && x in table.vals[table.keys[j]][i] {
      var j :| 0 <= j < |table.keys| && x in table.vals[table.keys[j]][i];
      assert x in col[j];
    }
  }

  /** Each line of list file `i` is placed after the lines of the groups before
      it: the file is group 0's chunk `i`, then group 1's, and so on. */
  lemma ListFileLinesOrder(table: OutputChunks, i: nat, j: nat)
    requires HasChunk(table, i) && j < |table.keys|
    ensures ListFileLines(table, i) ==
              Flatten(ChunkColumn(table, i)[..j]) + table.vals[table.keys[j]][i]
              + Flatten(ChunkColumn(table, i)[j + 1..])
  {
    var col := ChunkColumn(table, i);
    FlattenSplit(col, j);
  }

  lemma {:induction false} FlattenSplit<T>(ss: seq<seq<T>>, j: nat)
    requires j < |ss|
    ensures Flatten(ss) == Flatten(ss[..j]) + ss[j] + Flatten(ss[j + 1..])
    decreases |ss|
  {
    var n := |ss| - 1;
    assert ss[..n] + [ss[n]] == ss;
    if j == n {
      assert ss[j + 1..] == [];
      assert ss[..j] == ss[..n];
    } else {
      FlattenSplit(ss[..n], j);
      assert ss[..n][..j] == ss[..j];
      assert ss[..n][j] == ss[j];
      assert ss[j + 1..] == ss[..n][j + 1..] + [ss[n]];
      FlattenSnoc(ss[..n][j + 1..], ss[n]);
    }
  }

  /** The count over a concatenation is the sum of the counts. */
  lemma {:induction false} EventCountConcat(a: seq<string>, b: seq<string>, count: string -> nat)
    ensures EventCount(a + b, count) == EventCount(a, count) + EventCount(b, count)
    decreases |b|
  {
    if |b| > 0 {
      var n := |b| - 1;
      EventCountConcat(a, b[..n], count);
      assert (a + b)[..|a + b| - 1] == a + b[..n];
    } else {
      assert a + b == a;
    }
  }

  /** The recount of a group is the count of all its chunked files, taken as
      one list. */
  lemma {:induction false} ChunkEventsIsFlatCount(chunks: seq<seq<string>>, count: string -> nat)
    ensures ChunkEvents(chunks, count) == EventCount(Flatten(chunks), count)
    decreases |chunks|
  {
    if |chunks| > 0 {
      var n := |chunks| - 1;
      ChunkEventsIsFlatCount(chunks[..n], count);
      EventCountConcat(Flatten(chunks[..n]), chunks[n], count);
    }
  }

  /** When the bucket's table is present and its groups agree on their chunk
      count, the bucket adds one list file per chunk of the first group, and
      reports for each group the events of all its chunks. */
  lemma WriteBucketListsCount(s: WriteState, folder: string, b: Bucket, count: string -> nat)
    requires WellFormed(s.cfg)
    requires OutputKey(b) in s.cfg.vals && s.cfg.vals[OutputKey(b)].OutputTable?
    requires WriteBucketLists(s, folder, b, count).Success?
    ensures var table := s.cfg.vals[OutputKey(b)].chunks;
            var r := WriteBucketLists(s, folder, b, count).value;
            && |table.keys| > 0
            && |r.files| == |s.files| + |table.vals[table.keys[0]]|
            && r.files[..|s.files|] == s.files
            && |r.reports| == |s.reports| + 1
            && |r.reports[|s.reports|].groupEvents| == |table.keys|
            && forall j :: 0 <= j < |table.keys| && |table.vals[table.keys[j]]| == |table.vals[table.keys[0]]| ==>
                 r.reports[|s.reports|].groupEvents[j] == EventCount(Flatten(table.vals[table.keys[j]]), count)
  {
    var table := s.cfg.vals[OutputKey(b)].chunks;
    forall j | 0 <= j < |table.keys| && |table.vals[table.keys[j]]| == |table.vals[table.keys[0]]|
      ensures WriteBucketLists(s, folder, b, count).value.reports[|s.reports|].groupEvents[j]
              == EventCount(Flatten(table.vals[table.keys[j]]), count)
    {
      var c := table.vals[table.keys[j]];
      assert c[..|c|] == c;
      ChunkEventsIsFlatCount(c, count);
    }
  }

  // ---------------------------------------------------------------------------
  // The writer never reads past a chunk list when the tables are uniform

  /** Once a bucket raised, the later buckets are not written. */
  lemma {:induction false} WriteListsStopsAtError(cfg: Cfg, folder: string, count: string -> nat, j: nat, j': nat)
    requires WellFormed(cfg) && j <= j' <= |Buckets|
    requires WriteListsUpTo(cfg, folder, count, j).Failure?
    ensures WriteListsUpTo(cfg, folder, count, j') == WriteListsUpTo(cfg, folder, count, j)
    decreases j' - j
  {
    if j' > j {
      WriteListsStopsAtError(cfg, folder, count, j, j' - 1);
    }
  }

  /** The writer leaves the output tables alone; it only appends paths. */
  lemma {:induction false} WriteListsKeepsTables(cfg: Cfg, folder: string, count: string -> nat, j: nat)
    requires WellFormed(cfg) && j <= |Buckets|
    ensures var r := WriteListsUpTo(cfg, folder, count, j);
            r.Success? ==> forall k :: k != "output_lists" ==> Lookup(r.value.cfg, k) == Lookup(cfg, k)
    decreases j
  {
    if j > 0 {
      WriteListsKeepsTables(cfg, folder, count, j - 1);
      var prev := WriteListsUpTo(cfg, folder, count, j - 1);
      if prev.Success? {
        BucketListsKeepTables(prev.value, folder, Buckets[j - 1], count);
      }
    }
  }

  /** One bucket's list files only touch `output_lists`. */
  lemma BucketListsKeepTables(s: WriteState, folder: string, b: Bucket, count: string -> nat)
    requires WellFormed(s.cfg)
    ensures var r := WriteBucketLists(s, folder, b, count);
            r.Success? ==> forall k :: k != "output_lists" ==> Lookup(r.value.cfg, k) == Lookup(s.cfg, k)
  {
  }

  lemma OutputListsKeyIsNoOutputKey(b: Bucket)
    ensures OutputKey(b) != "output_lists" && NFilesKey(b) != "output_lists"
  {
    assert |OutputKey(b)| != |"output_lists"| || OutputKey(b)[7] != 'l';
    assert NFilesKey(b)[0] == 'n';
  }

  /** All groups of the table have the same number of chunks. */
  ghost predicate SameChunkCount(table: OutputChunks) {
    forall k1, k2 :: k1 in table.vals && k2 in table.vals ==> |table.vals[k1]| == |table.vals[k2]|
  }

  lemma SameChunkCountNeverOutOfRange(s: WriteState, folder: string, b: Bucket, count: string -> nat)
    requires WellFormed(s.cfg)
    requires OutputKey(b) in s.cfg.vals && s.cfg.vals[OutputKey(b)].OutputTable? ==>
               SameChunkCount(s.cfg.vals[OutputKey(b)].chunks)
    ensures var r := WriteBucketLists(s, folder, b, count);
            !(r.Failure? && r.error.ChunkIndexOutOfRange?)
  {
    var okey := OutputKey(b);
    if okey in s.cfg.vals && s.cfg.vals[okey].OutputTable? {
      var table := s.cfg.vals[okey].chunks;
      if |table.keys| > 0 {
        var n := |table.vals[table.keys[0]]|;
        if n > 0 {
          assert HasChunk(table, n - 1);
        }
      }
    }
  }

  /** A uniform configuration gives every group of a table the same chunk count. */
  lemma UniformTableHasSameChunkCount(cfg: Cfg, b: Bucket)
    requires UniformOutputs(cfg)
    ensures OutputKey(b) in cfg.vals && cfg.vals[OutputKey(b)].OutputTable? ==>
              SameChunkCount(cfg.vals[OutputKey(b)].chunks)
  {
  }

  /** When every output table holds the same number of chunks for each group
      (as `add_fpaths_for_data_split_to_cfg` leaves them), the writer never
      raises for a group with a missing chunk. */
  lemma {:induction false} UniformTablesNeverOutOfRange(cfg: Cfg, folder: string, count: string -> nat, j: nat)
    requires WellFormed(cfg) && UniformOutputs(cfg) && j <= |Buckets|
    ensures !(WriteListsUpTo(cfg, folder, count, j).Failure?
              && WriteListsUpTo(cfg, folder, count, j).error.ChunkIndexOutOfRange?)
    decreases j
  {
    if j > 0 {
      UniformTablesNeverOutOfRange(cfg, folder, count, j - 1);
      if WriteListsUpTo(cfg, folder, count, j - 1).Success? {
        UniformBucketNeverOutOfRange(cfg, folder, count, j - 1);
      }
    }
  }

  /** One step of the above: the tables the earlier buckets leave are those of
      the uniform configuration, so bucket `i` finds every chunk it reads. */
  lemma UniformBucketNeverOutOfRange(cfg: Cfg, folder: string, count: string -> nat, i: nat)
    requires WellFormed(cfg) && UniformOutputs(cfg) && i < |Buckets|
    requires WriteListsUpTo(cfg, folder, count, i).Success?
    ensures var r := WriteBucketLists(WriteListsUpTo(cfg, folder, count, i).value, folder, Buckets[i], count);
            !(r.Failure? && r.error.ChunkIndexOutOfRange?)
  {
    var prev := WriteListsUpTo(cfg, folder, count, i).value;
    var b := Buckets[i];
    WriteListsKeepsTables(cfg, folder, count, i);
    OutputListsKeyIsNoOutputKey(b);
    assert Lookup(prev.cfg, OutputKey(b)) == Lookup(cfg, OutputKey(b));
    UniformTableHasSameChunkCount(cfg, b);
    SameChunkCountNeverOutOfRange(prev, folder, b, count);
  }

  /** `make_dsplit_list_files` never hits a missing chunk on uniform tables. */
  lemma MakeListFilesUniform(cfg: Cfg, count: string -> nat)
    requires WellFormed(cfg) && UniformOutputs(cfg)
    ensures !(MakeListFiles(cfg, count).Failure? && MakeListFiles(cfg, count).error.ChunkIndexOutOfRange?)
  {
    if GetStr(cfg, "output_file_folder").Success? {
      UniformTablesNeverOutOfRange(cfg, GetStr(cfg, "output_file_folder").value, count, |Buckets|);
    }
  }

  // ---------------------------------------------------------------------------
  // The totals print after a bucket without list files

  /** A train table whose first group has no chunk raises at the totals print
      (lines 313-314): no earlier bucket assigned `keys`, and the validation
      and rest buckets are not written. */
  lemma EmptyTrainTableRaises(cfg: Cfg, count: string -> nat)
    requires WellFormed(cfg) && GetStr(cfg, "output_file_folder").Success?
    requires OutputKey(Train) in cfg.vals && cfg.vals[OutputKey(Train)].OutputTable?
    requires var t := cfg.vals[OutputKey(Train)].chunks; |t.keys| > 0 && |t.vals[t.keys[0]]| == 0
    ensures MakeListFiles(cfg, count) == Failure(UnboundGroupKeys(OutputKey(Train)))
  {
    var folder := GetStr(cfg, "output_file_folder").value;
    assert WriteListsUpTo(cfg, folder, count, 1) == Failure(UnboundGroupKeys(OutputKey(Train)));
    WriteListsStopsAtError(cfg, folder, count, 1, |Buckets|);
  }
}
