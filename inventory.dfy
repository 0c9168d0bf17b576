/** The file inventory of one input group (make_data_split.py): which files of a
    directory listing are data files, and how many events and which run id each
    file holds. Reading a file is replaced by a given store that maps a path to
    the `run_id` column of the file's label dataset `y`, one entry per event. */
module Inventory {
  import opened Wrappers
  import opened Seqs

  /** `f.endswith('.h5')` */
  predicate IsH5Name(f: string) {
    |f| >= 3 && f[|f| - 3..] == ".h5"
  }

  /** The `.h5` filter of `get_h5_filepaths`: every listed name that ends in
      `.h5`, prefixed by the directory, in listing order. */
  method GetH5Filepaths(dirpath: string, listing: seq<string>) returns (filepaths: seq<string>)
    ensures |filepaths| == |Filter(listing, IsH5Name)|
    ensures forall i :: 0 <= i < |filepaths| ==>
              filepaths[i] == dirpath + "/" + Filter(listing, IsH5Name)[i]
  {
    filepaths := [];
    var n := 0;
    while n < |listing|
      invariant 0 <= n <= |listing|
      invariant |filepaths| == |Filter(listing[..n], IsH5Name)|
      invariant forall i :: 0 <= i < |filepaths| ==>
                  filepaths[i] == dirpath + "/" + Filter(listing[..n], IsH5Name)[i]
    {
      assert listing[..n + 1][..n] == listing[..n];
      if IsH5Name(listing[n]) {
        filepaths := filepaths + [dirpath + "/" + listing[n]];
      }
      n := n + 1;
    }
    assert listing[..n] == listing;
  }

  /** Contents of the data files: path to the `run_id` column of dataset `y`. */
  type Store = map<string, seq<int>>

  datatype InventoryError =
    | UnreadableFile(path: string)   // `h5py.File(fpath)` fails: the run aborts
    | EmptyDataset(path: string)     // `f['y'][0]` on a dataset without rows
    | NoFiles                        // `total / len(list_of_files)` with no files

  datatype Inventory = Inventory(totalEvents: nat, meanEventsPerFile: real, runIds: seq<int>)

  /** The file opens and its dataset has a first row to read the run id from. */
  predicate Readable(store: Store, path: string) {
    path in store && |store[path]| > 0
  }

  /** The error the first unreadable file raises. */
  function ReadError(store: Store, path: string): InventoryError {
    if path in store then EmptyDataset(path) else UnreadableFile(path)
  }

  /** The number of events in the listed files: the sum of their row counts. */
  function TotalEvents(paths: seq<string>, store: Store): nat
    requires forall p :: p in paths ==> p in store
    decreases |paths|
  {
    if |paths| == 0 then 0
    else TotalEvents(paths[..|paths| - 1], store) + |store[paths[|paths| - 1]]|
  }

  /** `get_number_of_evts_and_run_ids`: the total event count, the mean number
      of events per file, and one run id per file (the first row's), parallel
      to the file list. */
  method GetNumberOfEvtsAndRunIds(listOfFiles: seq<string>, store: Store)
      returns (r: Result<Inventory, InventoryError>)
    ensures r.Success? <==>
              |listOfFiles| > 0 && forall i :: 0 <= i < |listOfFiles| ==> Readable(store, listOfFiles[i])
    ensures r.Success? ==>
              && r.value.totalEvents == TotalEvents(listOfFiles, store)
              && |r.value.runIds| == |listOfFiles|
              && (forall i :: 0 <= i < |listOfFiles| ==> r.value.runIds[i] == store[listOfFiles[i]][0])
              && r.value.meanEventsPerFile * (|listOfFiles| as real) == r.value.totalEvents as real
    ensures r == Failure(NoFiles) <==> |listOfFiles| == 0
    ensures r.Failure? && |listOfFiles| > 0 ==>
              exists i :: 0 <= i < |listOfFiles|
                && (forall j :: 0 <= j < i ==> Readable(store, listOfFiles[j]))
                && !Readable(store, listOfFiles[i])
                && r.error == ReadError(store, listOfFiles[i])
  {
    var total := 0;
    var runIds := [];
    var i := 0;
    while i < |listOfFiles|
      invariant 0 <= i <= |listOfFiles|
      invariant forall j :: 0 <= j < i ==> Readable(store, listOfFiles[j])
      invariant total == TotalEvents(listOfFiles[..i], store)
      invariant |runIds| == i
      invariant forall j :: 0 <= j < i ==> runIds[j] == store[listOfFiles[j]][0]
    {
      var fpath := listOfFiles[i];
      if !Readable(store, fpath) {
        r := Failure(ReadError(store, fpath));
        assert !Readable(store, listOfFiles[i]) && r.error == ReadError(store, listOfFiles[i]);
        return;
      }
      assert listOfFiles[..i + 1][..i] == listOfFiles[..i];
      total := total + |store[fpath]|;
      runIds := runIds + [store[fpath][0]];
      i := i + 1;
    }
    if |listOfFiles| == 0 {
      return Failure(NoFiles);
    }
    assert listOfFiles[..i] == listOfFiles;
    var count := |listOfFiles| as real;
    var mean := total as real / count;
    assert mean * count == total as real;
    r := Success(Inventory(total, mean, runIds));
  }
}
