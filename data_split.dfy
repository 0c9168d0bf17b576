/** The configuration object of make_data_split.py, which the planning steps
    update in place: `get_all_ip_group_keys`, `add_fpaths_for_data_split_to_cfg`
    and `make_dsplit_list_files`. Each method is proved against the
    specification functions of SplitConfig and ListLayout. */
module DataSplit {
  import opened Wrappers
  import opened Seqs
  import opened OrderedDicts
  import opened Chunking
  import opened SplitConfig
  import opened ListLayout

  /** The events of the files of one chunk, summed while the chunk's lines
      are written (lines 307-310). */
  method CountChunk(chunk: seq<string>, count: string -> nat) returns (events: nat)
    ensures events == EventCount(chunk, count)
  {
    events := 0;
    var t := 0;
    while t < |chunk|
      invariant 0 <= t <= |chunk|
      invariant events == EventCount(chunk[..t], count)
    {
      assert chunk[..t + 1][..t] == chunk[..t];
      events := events + count(chunk[t]);
      t := t + 1;
    }
    assert chunk[..t] == chunk;
  }

  /** `column` holds chunk `i` of the first `j` groups of `table`. */
  ghost predicate ColumnPrefix(table: OutputChunks, i: nat, column: seq<seq<string>>, j: nat)
    requires table.Valid() && j <= |table.keys|
  {
    && |column| == j
    && forall j' :: 0 <= j' < j ==>
         i < |table.vals[table.keys[j']]| && column[j'] == table.vals[table.keys[j']][i]
  }

  /** `newTotals` adds the events of `column` to the first `j` entries of `totals`. */
  ghost predicate TotalsAdded(totals: seq<nat>, newTotals: seq<nat>, column: seq<seq<string>>, count: string -> nat, j: nat)
    requires |column| == j <= |totals|
  {
    && |newTotals| == |totals|
    && (forall j' :: 0 <= j' < j ==> newTotals[j'] == totals[j'] + EventCount(column[j'], count))
    && (forall j' :: j <= j' < |totals| ==> newTotals[j'] == totals[j'])
  }

  lemma CollectStep(table: OutputChunks, i: nat, column: seq<seq<string>>, j: nat,
                    totals: seq<nat>, newTotals: seq<nat>, count: string -> nat, events: nat)
    requires table.Valid() && j < |table.keys| == |totals|
    requires ColumnPrefix(table, i, column, j) && TotalsAdded(totals, newTotals, column, count, j)
    requires i < |table.vals[table.keys[j]]|
    requires events == EventCount(table.vals[table.keys[j]][i], count)
    ensures ColumnPrefix(table, i, column + [table.vals[table.keys[j]][i]], j + 1)
    ensures TotalsAdded(totals, newTotals[j := newTotals[j] + events],
                        column + [table.vals[table.keys[j]][i]], count, j + 1)
    ensures Flatten(column + [table.vals[table.keys[j]][i]]) == Flatten(column) + table.vals[table.keys[j]][i]
  {
    FlattenSnoc(column, table.vals[table.keys[j]][i]);
  }

  /** The lines of list file `i` and the recount of each group's chunk `i`
      (lines 303-310), or `false` when some group has no chunk `i`, the
      IndexError the source raises there. */
  method CollectListFile(table: OutputChunks, i: nat, count: string -> nat, totals: seq<nat>)
      returns (ok: bool, lines: seq<string>, newTotals: seq<nat>)
    requires table.Valid() && |totals| == |table.keys|
    ensures ok <==> HasChunk(table, i)
    ensures ok ==> lines == ListFileLines(table, i)
    ensures ok ==> |newTotals| == |totals|
    ensures ok ==> forall j :: 0 <= j < |totals| ==>
                     newTotals[j] == totals[j] + EventCount(table.vals[table.keys[j]][i], count)
  {
    lines, newTotals := [], totals;
    ghost var column: seq<seq<string>> := [];
    var j := 0;
    while j < |table.keys|
      invariant 0 <= j <= |table.keys|
      invariant ColumnPrefix(table, i, column, j)
      invariant TotalsAdded(totals, newTotals, column, count, j)
      invariant lines == Flatten(column)
    {
      var chunks := table.vals[table.keys[j]];
      if i >= |chunks| {
        assert !HasChunk(table, i) by {
          assert table.keys[j] in table.keys;
        }
        return false, lines, newTotals;
      }
      var events := CountChunk(chunks[i], count);
      CollectStep(table, i, column, j, totals, newTotals, count, events);
      column := column + [chunks[i]];
      newTotals := newTotals[j := newTotals[j] + events];
      lines := lines + chunks[i];
      j := j + 1;
    }
    assert HasChunk(table, i) by {
      forall k | k in table.keys
        ensures i < |table.vals[k]|
      {
        var j' :| 0 <= j' < |table.keys| && table.keys[j'] == k;
      }
    }
    assert column == ChunkColumn(table, i);
    ok := true;
  }

  /** The inner loop at lines 241-246: `fpath` is appended to the list of
      every bucket whose run-id range holds `runId`. */
  method AddToBuckets(lists: map<Bucket, seq<string>>, fpath: string, runId: int, ranges: map<Bucket, RunIdRange>)
      returns (updated: map<Bucket, seq<string>>)
    requires forall b :: b in lists
    ensures forall b :: b in updated &&
              updated[b] == lists[b] + (if InBucket(ranges, b, runId) then [fpath] else [])
  {
    updated := lists;
    var d := 0;
    while d < |Buckets|
      invariant 0 <= d <= |Buckets|
      invariant forall b :: b in updated
      invariant forall b :: BucketIndex(b) < d ==>
                  updated[b] == lists[b] + (if InBucket(ranges, b, runId) then [fpath] else [])
      invariant forall b :: BucketIndex(b) >= d ==> updated[b] == lists[b]
    {
      var b := Buckets[d];
      if b in ranges {
        if ranges[b].low <= runId <= ranges[b].high {
          updated := updated[b := updated[b] + [fpath]];
        }
      }
      d := d + 1;
    }
  }

  /** The loop at lines 239-246: each file of the group goes to every bucket
      whose run-id range holds the file's run id, in file order; `None` is the
      IndexError raised when the group lists fewer run ids than files. */
  method AssignFiles(g: InputGroup) returns (fpathLists: Option<map<Bucket, seq<string>>>)
    ensures fpathLists.None? <==> |g.runIds| < |g.fpaths|
    ensures fpathLists.Some? ==>
              forall b :: b in fpathLists.value && fpathLists.value[b] == GroupBucketFiles(g, b)
  {
    var lists: map<Bucket, seq<string>> := map[Train := [], Validate := [], Rest := []];
    forall b: Bucket
      ensures b in lists && lists[b] == BucketFiles(g.fpaths[..0], g.runIds, g.ranges, b)
    {
      assert b.Train? || b.Validate? || b.Rest?;
      assert g.fpaths[..0] == [];
    }
    var i := 0;
    while i < |g.fpaths|
      invariant 0 <= i <= |g.fpaths| && i <= |g.runIds|
      invariant forall b :: b in lists && lists[b] == BucketFiles(g.fpaths[..i], g.runIds, g.ranges, b)
    {
      if i >= |g.runIds| {
        return None;
      }
      BucketFilesStep(g.fpaths, g.runIds, g.ranges, i);
      lists := AddToBuckets(lists, g.fpaths[i], g.runIds[i], g.ranges);
      i := i + 1;
    }
    assert g.fpaths[..i] == g.fpaths;
    return Some(lists);
  }

  lemma TotalsStep(totals: seq<nat>, newTotals: seq<nat>, table: OutputChunks, count: string -> nat, i: nat)
    requires table.Valid() && HasChunk(table, i)
    requires totals == ChunkTotals(table, count, i) && |newTotals| == |totals|
    requires forall j :: 0 <= j < |totals| ==>
               newTotals[j] == totals[j] + EventCount(table.vals[table.keys[j]][i], count)
    ensures newTotals == ChunkTotals(table, count, i + 1)
  {
    forall j | 0 <= j < |table.keys|
      ensures newTotals[j] == ChunkEvents(table.vals[table.keys[j]][..i + 1], count)
    {
      var c := table.vals[table.keys[j]];
      assert table.keys[j] in table.keys;
      assert c[..i + 1][..i] == c[..i];
    }
  }

  /** The state of the writer once the first `i` list files of bucket `b`
      are written, starting from `start`. */
  ghost predicate ListsWritten(start: Cfg, cfg: Cfg, lists: seq<string>, folder: string, name: string, b: Bucket,
                               table: OutputChunks, count: string -> nat, i: nat,
                               written: seq<ListFile>, totals: seq<nat>)
    requires table.Valid()
  {
    && (i == 0 || HasChunk(table, i - 1))
    && cfg == ListsAppended(start, lists + ListPaths(folder, name, b, i), i)
    && written == ListFiles(folder, name, b, table, i)
    && totals == ChunkTotals(table, count, i)
  }

  /** The config once `i` list paths have been appended: `output_lists` is
      only written once a first file is. */
  function ListsAppended(cfg: Cfg, paths: seq<string>, i: nat): Cfg {
    if i == 0 then cfg else cfg.Put("output_lists", PathList(paths))
  }

  /** Appending the path of list file `i` to `output_lists` gives the config
      with `i + 1` paths appended. */
  lemma ListsAppendedNext(cfg: Cfg, lists: seq<string>, folder: string, name: string, b: Bucket, i: nat)
    requires OutputListsOf(cfg) == Success(lists)
    ensures var current := ListsAppended(cfg, lists + ListPaths(folder, name, b, i), i);
            && OutputListsOf(current).Success?
            && current.Put("output_lists", PathList(OutputListsOf(current).value + [ListFilePath(folder, name, b, i)]))
               == ListsAppended(cfg, lists + ListPaths(folder, name, b, i + 1), i + 1)
  {
    ListPathsSnoc(lists, folder, name, b, i);
    var paths := lists + ListPaths(folder, name, b, i);
    var next := paths + [ListFilePath(folder, name, b, i)];
    if i > 0 {
      var current := cfg.Put("output_lists", PathList(paths));
      assert OutputListsOf(current) == Success(paths);
      PutPut(cfg, "output_lists", PathList(paths), PathList(next));
    } else {
      assert paths == lists;
    }
  }

  lemma ListsAppendedWellFormed(cfg: Cfg, paths: seq<string>, i: nat)
    requires WellFormed(cfg)
    ensures WellFormed(ListsAppended(cfg, paths, i))
  {
  }

  class Config {
    /** The configuration dict, in its insertion order. */
    var entries: Cfg

    ghost predicate Valid()
      reads this
    {
      WellFormed(entries)
    }

    constructor (cfg: Cfg)
      requires WellFormed(cfg)
      ensures Valid() && entries == cfg
    {
      entries := cfg;
    }

    /** `get_all_ip_group_keys(cfg)` */
    method GetAllIpGroupKeys() returns (ipGroupKeys: seq<string>)
      requires Valid()
      ensures ipGroupKeys == GroupKeys(entries)
    {
      ipGroupKeys := [];
      var i := 0;
      while i < |entries.keys|
        invariant 0 <= i <= |entries.keys|
        invariant ipGroupKeys == Filter(entries.keys[..i], IsDictKey(entries))
      {
        var key := entries.keys[i];
        assert entries.keys[..i + 1][..i] == entries.keys[..i];
        if entries.vals[key].IsDict() {
          ipGroupKeys := ipGroupKeys + [key];
        }
        i := i + 1;
      }
      assert entries.keys[..i] == entries.keys;
    }

    /** `add_fpaths_for_data_split_to_cfg(cfg, key)`: the config afterwards and
        the exception raised, if any, are those of `PlanGroup`. */
    method AddFpathsForDataSplitToCfg(key: string) returns (err: Option<PlanError>)
      requires Valid()
      modifies this
      ensures Valid()
      ensures entries == PlanGroup(old(entries), key).cfg
      ensures err == PlanGroup(old(entries), key).err
    {
      if key !in entries.vals {
        return Some(MissingKey(key));
      }
      if !entries.vals[key].GroupTable? {
        return Some(WrongType(key));
      }
      var g := entries.vals[key].group;
      var fpathLists := AssignFiles(g);
      if fpathLists.None? {
        return Some(RunIdIndex(key, |g.runIds|));
      }
      err := None;
      var j := 0;
      while j < |Buckets|
        invariant 0 <= j <= |Buckets|
        invariant WriteBuckets(old(entries), key, g, j) == PlanOutcome(entries, None)
        invariant Valid() && err.None?
      {
        var b := Buckets[j];
        err := WriteBucketInPlace(key, b, fpathLists.value[b]);
        if err.Some? {
          WriteBucketsStopsAtError(old(entries), key, g, j + 1, |Buckets|);
          return;
        }
        j := j + 1;
      }
    }

    /** One iteration of the loop at line 248: bucket `b`'s list `files` is
        split into `n_files_<b>` chunks stored under `output_<b>`, as
        `WriteBucket` says; on an exception nothing changes. */
    method WriteBucketInPlace(key: string, b: Bucket, files: seq<string>) returns (err: Option<PlanError>)
      requires Valid()
      modifies this
      ensures Valid()
      ensures var r := WriteBucket(old(entries), key, b, files);
              && (err.None? <==> r.Success?)
              && (r.Success? ==> entries == r.value)
              && (r.Failure? ==> entries == old(entries) && err == Some(r.error))
    {
      WriteBucketWellFormed(entries, key, b, files);
      if |files| == 0 {
        return None;
      }
      var nKey := NFilesKey(b);
      if nKey !in entries.vals {
        return Some(MissingKey(nKey));
      }
      if !entries.vals[nKey].IntValue? {
        return Some(WrongType(nKey));
      }
      var split := Split(files, entries.vals[nKey].i);
      if split.Failure? {
        return Some(ZeroChunks(nKey));
      }
      var outKey := OutputKey(b);
      if outKey in entries.vals && !entries.vals[outKey].OutputTable? {
        return Some(WrongType(outKey));
      }
      ghost var before := entries;
      if outKey !in entries.vals {
        entries := entries.Put(outKey, OutputTable(Empty()));
        PutPut(before, outKey, OutputTable(Empty()), OutputTable(Empty<string, seq<seq<string>>>().Put(key, split.value)));
      }
      entries := entries.Put(outKey, OutputTable(entries.vals[outKey].chunks.Put(key, split.value)));
      err := None;
    }

    /** The `n` list files of one bucket (lines 295-310): each file's path is
        appended to `output_lists`, its lines are the group's chunk `i` after
        chunk `i` of every earlier group, and each group's events are summed. */
    method WriteListFiles(folder: string, name: string, b: Bucket, table: OutputChunks, n: nat,
                          lists: seq<string>, count: string -> nat)
        returns (ok: bool, written: seq<ListFile>, totals: seq<nat>, ghost appended: nat)
      requires table.Valid() && OutputListsOf(entries) == Success(lists)
      modifies this
      ensures entries == ListsAppended(old(entries), lists + ListPaths(folder, name, b, appended), appended)
      ensures ok <==> n == 0 || HasChunk(table, n - 1)
      ensures ok ==> appended == n && ListsWritten(old(entries), entries, lists, folder, name, b, table, count, n, written, totals)
    {
      written, totals := [], seq(|table.keys|, j => 0);
      ok := true;
      var i := 0;
      while i < n && ok
        invariant i <= n
        invariant ok ==> ListsWritten(old(entries), entries, lists, folder, name, b, table, count, i, written, totals)
        invariant !ok ==> 0 < n && !HasChunk(table, n - 1) &&
                          entries == ListsAppended(old(entries), lists + ListPaths(folder, name, b, i), i)
      {
        ok, written, totals := WriteListFile(old(entries), folder, name, b, table, i, n, lists, count, written, totals);
        i := i + 1;
      }
      appended := i;
    }

    /** One iteration of the loop at line 295: the path of list file `i` is
        appended to `output_lists`, then chunk `i` of every group is written
        to it and counted. */
    method WriteListFile(ghost start: Cfg, folder: string, name: string, b: Bucket, table: OutputChunks, i: nat, n: nat,
                         ghost lists: seq<string>, count: string -> nat, written: seq<ListFile>, totals: seq<nat>)
        returns (ok: bool, newWritten: seq<ListFile>, newTotals: seq<nat>)
      requires table.Valid() && i < n && OutputListsOf(start) == Success(lists)
      requires ListsWritten(start, entries, lists, folder, name, b, table, count, i, written, totals)
      modifies this
      ensures entries == ListsAppended(start, lists + ListPaths(folder, name, b, i + 1), i + 1)
      ensures ok <==> HasChunk(table, i)
      ensures !ok ==> !HasChunk(table, n - 1)
      ensures ok ==> ListsWritten(start, entries, lists, folder, name, b, table, count, i + 1, newWritten, newTotals)
    {
      ListsAppendedNext(start, lists, folder, name, b, i);
      var fpathOutput := ListFilePath(folder, name, b, i);
      AppendOutputList(fpathOutput);
      var lines;
      ok, lines, newTotals := CollectListFile(table, i, count, totals);
      if ok {
        TotalsStep(totals, newTotals, table, count, i);
      } else {
        NoChunkBeyond(table, i, n - 1);
      }
      newWritten := written + [ListFile(fpathOutput, lines)];
    }

    /** Lines 299-301: `output_lists` is created empty when absent, then
        `path` is appended to it. */
    method AppendOutputList(path: string)
      requires OutputListsOf(entries).Success?
      modifies this
      ensures entries == old(entries).Put("output_lists", PathList(OutputListsOf(old(entries)).value + [path]))
    {
      if "output_lists" !in entries.vals {
        entries := entries.Put("output_lists", PathList([]));
      }
      entries := entries.Put("output_lists", PathList(entries.vals["output_lists"].paths + [path]));
      if "output_lists" !in old(entries.vals) {
        PutPut(old(entries), "output_lists", PathList([]), PathList([path]));
      }
    }

    /** The list files of bucket `b` (lines 282-314), added to `files` and
        `reports`, with `printKeys` the `keys` an earlier bucket left; the
        outcome is that of `WriteBucketLists`. */
    method WriteBucketListFiles(folder: string, b: Bucket, count: string -> nat,
                                files: seq<ListFile>, reports: seq<BucketReport>, printKeys: Option<seq<string>>)
        returns (r: Result<WriteState, PlanError>)
      requires Valid()
      modifies this
      ensures Valid()
      ensures var spec := WriteBucketLists(WriteState(old(entries), files, reports, printKeys), folder, b, count);
              && (r.Success? <==> spec.Success?)
              && (r.Failure? ==> r.error == spec.error)
              && (r.Success? ==> r.value == spec.value && entries == spec.value.cfg)
    {
      var outKey := OutputKey(b);
      if outKey !in entries.vals {
        return Success(WriteState(entries, files, reports, printKeys));
      }
      if !entries.vals[outKey].OutputTable? {
        return Failure(WrongType(outKey));
      }
      var table := entries.vals[outKey].chunks;
      if |table.keys| == 0 {
        return Failure(NoInputGroups(outKey));
      }
      var nOutputFiles := |table.vals[table.keys[0]]|;
      if nOutputFiles == 0 {
        if printKeys.None? {
          return Failure(UnboundGroupKeys(outKey));
        }
        if |printKeys.value| < |table.keys| {
          return Failure(StaleGroupKeys(outKey));
        }
        return Success(WriteState(entries, files, reports + [BucketReport(b, seq(|table.keys|, j => 0))], printKeys));
      }
      var name := GetStr(entries, "output_file_name");
      if name.Failure? {
        return Failure(name.error);
      }
      var lists := OutputListsOf(entries);
      if lists.Failure? {
        return Failure(lists.error);
      }
      var ok, written, totals, appended := WriteListFiles(folder, name.value, b, table, nOutputFiles, lists.value, count);
      ListsAppendedWellFormed(old(entries), lists.value + ListPaths(folder, name.value, b, appended), appended);
      if !ok {
        return Failure(ChunkIndexOutOfRange(outKey));
      }
      r := Success(WriteState(entries, files + written, reports + [BucketReport(b, totals)], Some(table.keys)));
    }

    /** `make_dsplit_list_files(cfg)`: the list files of the three buckets in
        turn, with the paths appended to `output_lists` and the per-group event
        totals of each bucket; the outcome is that of `MakeListFiles`. */
    method MakeDsplitListFiles(count: string -> nat) returns (r: Result<WriteState, PlanError>)
      requires Valid()
      modifies this
      ensures Valid()
      ensures r == MakeListFiles(old(entries), count)
      ensures r.Success? ==> entries == r.value.cfg
    {
      var folder := GetStr(entries, "output_file_folder");
      if folder.Failure? {
        return Failure(folder.error);
      }
      var files: seq<ListFile> := [];
      var reports: seq<BucketReport> := [];
      var printKeys: Option<seq<string>> := None;
      var d := 0;
      while d < |Buckets|
        invariant 0 <= d <= |Buckets|
        invariant Valid()
        invariant WriteListsUpTo(old(entries), folder.value, count, d) == Success(WriteState(entries, files, reports, printKeys))
      {
        var step := WriteBucketListFiles(folder.value, Buckets[d], count, files, reports, printKeys);
        if step.Failure? {
          WriteListsStopsAtError(old(entries), folder.value, count, d + 1, |Buckets|);
          return Failure(step.error);
        }
        files, reports, printKeys := step.value.files, step.value.reports, step.value.printKeys;
        d := d + 1;
      }
      r := Success(WriteState(entries, files, reports, printKeys));
    }
  }
}
