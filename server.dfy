/** The single-file backend of `server.py`: its path helpers, the
    `run_scan` worker (ghost clean-up, discovery with pruned directories,
    "new files only", batches of 32 and the `scan_status` counters), the
    scan trigger, and the shaping of `/api/search` and `/api/weave`
    results.

    As in the `Scanner` module, the file system is the `Scanner.Disk`
    oracle and an inserted row is recorded as a `StoredRow`; the CLIP
    embeddings, EXIF metadata, file sizes and modification times are not
    part of the model. Similarity scores are opaque reals from the ML
    layer. */
module Server {
  import opened Common
  import opened FileTree
  import Scanner
  import Routes

  /** The five image extensions of `run_scan`. */
  const ImageExts: set<string> := {".jpg", ".jpeg", ".png", ".webp", ".bmp"}
  const SearchTopK: nat := 500
  const WeaveThreshold: real := 0.35

  // ---------------------------------------------------------------------
  // Path helpers

  /** `clean_path_for_web`: the same rewrite as `web_path` in the routes. */
  function CleanPathForWeb(p: string): (r: string)
    ensures r == Routes.WebPath(p)
  {
    Replace(p, '\\', '/')
  }

  /** `get_safe_thumb_filename`: the cleaned name with ".jpg" appended
      unconditionally. */
  function SafeThumbFilename(p: string): (r: string)
    ensures ':' !in r && '\\' !in r && '/' !in r
    ensures |r| == |Scanner.CleanName(p)| + 4 && r[..|r| - 4] == Scanner.CleanName(p) && EndsWith(r, ".jpg")
  {
    Scanner.CleanName(p) + ".jpg"
  }

  /** Unlike `thumb_name`, the name is not idempotent: every application
      adds another ".jpg". */
  lemma SafeThumbFilenameAppendsAgain(p: string)
    ensures SafeThumbFilename(SafeThumbFilename(p)) == SafeThumbFilename(p) + ".jpg"
  {
    var r := SafeThumbFilename(p);
    assert '/' !in r;
    ReplaceIdentity(r, '\\', '_');
    ReplaceIdentity(r, '/', '_');
    assert Scanner.CleanName(r) == r;
  }

  /** The two backends name a thumbnail alike except for a file whose
      cleaned name already ends in ".jpg" (any case): there this backend
      adds a second ".jpg". */
  lemma SafeThumbFilenameVersusThumbName(p: string)
    ensures !EndsWith(Lower(Scanner.CleanName(p)), ".jpg") ==> SafeThumbFilename(p) == Scanner.ThumbName(p)
    ensures EndsWith(Lower(Scanner.CleanName(p)), ".jpg") ==> SafeThumbFilename(p) == Scanner.ThumbName(p) + ".jpg"
  {
  }

  /** `generate_thumbnail`: the path under the thumbnail directory when the
      file is already there or the image renders, else `None`. */
  function GenerateThumbnail(path: string, thumbDir: string, disk: Scanner.Disk): (r: Option<string>)
    ensures r.Some? <==> disk.thumbOnDisk(SafeThumbFilename(path)) || disk.renders(path)
    ensures r.Some? ==> r.value == thumbDir + "/" + SafeThumbFilename(path)
  {
    var name := SafeThumbFilename(path);
    if disk.thumbOnDisk(name) then Some(thumbDir + "/" + name)
    else if disk.renders(path) then Some(thumbDir + "/" + name)
    else None
  }

  // ---------------------------------------------------------------------
  // run_scan: discovery

  /** The directories the walk does not enter. */
  predicate PrunedDir(d: string) {
    StartsWith(d, ".") || d == "system" || d == "node_modules"
  }

  /** `os.walk` reaches a file only when none of its directories is pruned. */
  predicate Reachable(f: WalkFile) {
    forall k :: 0 <= k < |f.subdirs| ==> !PrunedDir(f.subdirs[k])
  }

  /** A reached file is kept when its name does not start with "._" or "."
      and its lower-cased `splitext` extension is an image extension. */
  predicate Discovered(f: WalkFile) {
    Reachable(f) && !HiddenName(f.name) && HasImageExt(f.name)
  }

  /** `file.startswith('._') or file.startswith('.')`. */
  predicate HiddenName(name: string) {
    StartsWith(name, "._") || StartsWith(name, ".")
  }

  /** `os.path.splitext(file)[1].lower() in image_exts`. */
  predicate HasImageExt(name: string) {
    Lower(SplitExt(name)) in ImageExts
  }

  /** The discovery loop over every file of the tree in walk order. */
  method DiscoverImages(tree: seq<WalkFile>) returns (allFiles: seq<WalkFile>)
    ensures allFiles == Filter(tree, Discovered)
  {
    allFiles := [];
    for k := 0 to |tree|
      invariant allFiles == Filter(tree[..k], Discovered)
    {
      FilterSnoc(tree, k, Discovered);
      var f := tree[k];
      if !Reachable(f) {
        continue;
      }
      if HiddenName(f.name) {
        continue;
      }
      if HasImageExt(f.name) {
        allFiles := allFiles + [f];
      }
    }
    assert tree[..|tree|] == tree;
  }

  /** A discovered file is never a dot-file, never below a pruned
      directory, and has an image extension in some letter case. */
  lemma DiscoveredShape(tree: seq<WalkFile>, f: WalkFile)
    ensures f in Filter(tree, Discovered) <==>
      && f in tree
      && (forall k :: 0 <= k < |f.subdirs| ==> !StartsWith(f.subdirs[k], ".")
                                               && f.subdirs[k] != "system" && f.subdirs[k] != "node_modules")
      && !StartsWith(f.name, ".")
      && Lower(SplitExt(f.name)) in ImageExts
  {
    assert f in Filter(tree, Discovered) <==> f in tree && Discovered(f);
    HiddenNameIsDot(f.name);
  }

  /** The "._" test is subsumed by the "." test. */
  lemma HiddenNameIsDot(name: string)
    ensures HiddenName(name) <==> StartsWith(name, ".")
  {
    if StartsWith(name, "._") {
      assert name[..1] == "._"[..1];
    }
  }

  /** `str(f) not in existing_paths`. */
  function NotStored(root: string, existing: set<string>): WalkFile -> bool
  {
    f => FullPath(root, f) !in existing
  }

  // ---------------------------------------------------------------------
  // run_scan: the inserted rows

  datatype StoredRow = StoredRow(path: string, thumb: Option<string>)

  /** What one file contributes: a row when the image opens, else nothing. */
  function StoredRowOf(root: string, f: WalkFile, thumbDir: string, disk: Scanner.Disk): seq<StoredRow>
  {
    var p := FullPath(root, f);
    if disk.opens(p) then [StoredRow(p, GenerateThumbnail(p, thumbDir, disk))] else []
  }

  function StoredRowFn(root: string, thumbDir: string, disk: Scanner.Disk): WalkFile -> seq<StoredRow>
  {
    f => StoredRowOf(root, f, thumbDir, disk)
  }

  function StoredRowsOf(root: string, fs: seq<WalkFile>, thumbDir: string, disk: Scanner.Disk): seq<StoredRow>
  {
    FlatMap(fs, StoredRowFn(root, thumbDir, disk))
  }

  /** One row per file that opens, no more. */
  lemma StoredRowsCount(root: string, fs: seq<WalkFile>, thumbDir: string, disk: Scanner.Disk)
    ensures |StoredRowsOf(root, fs, thumbDir, disk)| == |Filter(fs, Opens(root, disk))| <= |fs|
  {
    var g := StoredRowFn(root, thumbDir, disk);
    forall f ensures |g(f)| == (if Opens(root, disk)(f) then 1 else 0) {
      assert g(f) == StoredRowOf(root, f, thumbDir, disk);
    }
    FlatMapCount(fs, g, Opens(root, disk));
  }

  /** Every row is for a file of the list that opens. */
  lemma {:induction false} StoredRowsFrom(root: string, fs: seq<WalkFile>, thumbDir: string, disk: Scanner.Disk)
    ensures forall r :: r in StoredRowsOf(root, fs, thumbDir, disk) ==>
      exists f :: f in fs && disk.opens(FullPath(root, f)) && r.path == FullPath(root, f)
  {
    if fs != [] {
      var init, last := fs[..|fs| - 1], fs[|fs| - 1];
      StoredRowsFrom(root, init, thumbDir, disk);
      assert StoredRowsOf(root, fs, thumbDir, disk) == StoredRowsOf(root, init, thumbDir, disk) + StoredRowOf(root, last, thumbDir, disk);
      forall r | r in StoredRowsOf(root, fs, thumbDir, disk)
        ensures exists f :: f in fs && disk.opens(FullPath(root, f)) && r.path == FullPath(root, f)
      {
        if r in StoredRowsOf(root, init, thumbDir, disk) {
          var f :| f in init && disk.opens(FullPath(root, f)) && r.path == FullPath(root, f);
          assert f in fs;
        } else {
          assert r in StoredRowOf(root, last, thumbDir, disk);
          assert last in fs;
        }
      }
    }
  }

  function Opens(root: string, disk: Scanner.Disk): WalkFile -> bool
  {
    f => disk.opens(FullPath(root, f))
  }

  /** The first loop of a batch: every file is named in `last_file` as it
      is tried, and the files that open are collected. */
  method OpenBatch(st: Scanner.ScanStatus, root: string, batch: seq<WalkFile>, thumbDir: string, disk: Scanner.Disk)
    returns (valid: seq<StoredRow>)
    requires |batch| > 0
    modifies st
    ensures valid == StoredRowsOf(root, batch, thumbDir, disk)
    ensures st.lastFile == batch[|batch| - 1].name
    ensures st.current == old(st.current) && st.total == old(st.total) && st.status == old(st.status)
  {
    valid := [];
    for k := 0 to |batch|
      invariant valid == StoredRowsOf(root, batch[..k], thumbDir, disk)
      invariant k > 0 ==> st.lastFile == batch[k - 1].name
      invariant st.current == old(st.current) && st.total == old(st.total) && st.status == old(st.status)
    {
      assert batch[..k + 1][..k] == batch[..k];
      var f := batch[k];
      st.lastFile := f.name;
      var p := FullPath(root, f);
      if disk.opens(p) {
        valid := valid + [StoredRow(p, GenerateThumbnail(p, thumbDir, disk))];
      }
    }
    assert batch[..|batch|] == batch;
  }

  /** The second loop of a batch: one `INSERT` per valid file, each
      followed by `scan_status["current"] += 1`. */
  method InsertBatch(st: Scanner.ScanStatus, rows: seq<StoredRow>, valid: seq<StoredRow>) returns (rows': seq<StoredRow>)
    modifies st
    ensures rows' == rows + valid
    ensures st.current == old(st.current) + |valid|
    ensures st.total == old(st.total) && st.status == old(st.status) && st.lastFile == old(st.lastFile)
  {
    rows' := rows;
    for j := 0 to |valid|
      invariant rows' == rows + valid[..j]
      invariant st.current == old(st.current) + j
      invariant st.total == old(st.total) && st.status == old(st.status) && st.lastFile == old(st.lastFile)
    {
      assert valid[..j + 1] == valid[..j] + [valid[j]];
      rows' := rows' + [valid[j]];
      st.current := st.current + 1;
    }
    assert valid[..|valid|] == valid;
  }

  lemma StoredRowsSplit(root: string, fs: seq<WalkFile>, i: nat, end: nat, thumbDir: string, disk: Scanner.Disk)
    requires i <= end <= |fs|
    ensures StoredRowsOf(root, fs[..end], thumbDir, disk)
         == StoredRowsOf(root, fs[..i], thumbDir, disk) + StoredRowsOf(root, fs[i..end], thumbDir, disk)
  {
    assert fs[..end] == fs[..i] + fs[i..end];
    FlatMapConcat(fs[..i], fs[i..end], StoredRowFn(root, thumbDir, disk));
  }

  /** One pass of the batch loop over the slice `to_process[i:end]`; a
      batch in which no image opens inserts nothing. */
  method ScanBatch(st: Scanner.ScanStatus, root: string, toProcess: seq<WalkFile>, i: nat, end: nat,
                   rows: seq<StoredRow>, thumbDir: string, disk: Scanner.Disk)
    returns (rows': seq<StoredRow>)
    requires i < end <= |toProcess|
    requires rows == StoredRowsOf(root, toProcess[..i], thumbDir, disk)
    modifies st
    ensures rows' == StoredRowsOf(root, toProcess[..end], thumbDir, disk)
    ensures st.current == old(st.current) + |rows'| - |rows|
    ensures st.lastFile == toProcess[end - 1].name
    ensures st.total == old(st.total) && st.status == old(st.status)
  {
    var batch := toProcess[i..end];
    var valid := OpenBatch(st, root, batch, thumbDir, disk);
    StoredRowsSplit(root, toProcess, i, end, thumbDir, disk);
    assert rows + valid == StoredRowsOf(root, toProcess[..end], thumbDir, disk);
    assert batch[|batch| - 1] == toProcess[end - 1];
    if valid == [] {
      rows' := rows;
      return;
    }
    rows' := InsertBatch(st, rows, valid);
  }

  /** The batch loop over `to_process` in slices of 32. */
  method ScanBatches(st: Scanner.ScanStatus, root: string, toProcess: seq<WalkFile>, thumbDir: string, disk: Scanner.Disk)
    returns (rows: seq<StoredRow>, ghost batches: seq<seq<WalkFile>>)
    modifies st
    ensures rows == StoredRowsOf(root, toProcess, thumbDir, disk)
    ensures st.current == old(st.current) + |rows|
    ensures st.lastFile == if toProcess == [] then old(st.lastFile) else toProcess[|toProcess| - 1].name
    ensures st.total == old(st.total) && st.status == old(st.status)
    ensures Scanner.Flatten(batches) == toProcess
    ensures Scanner.Batched(batches, false)
  {
    rows := [];
    batches := [];
    var i := 0;
    while i < |toProcess|
      invariant i <= |toProcess|
      invariant rows == StoredRowsOf(root, toProcess[..i], thumbDir, disk)
      invariant Scanner.Flatten(batches) == toProcess[..i]
      invariant Scanner.Batched(batches, i < |toProcess|)
      invariant st.current == old(st.current) + |rows|
      invariant st.lastFile == if i == 0 then old(st.lastFile) else toProcess[i - 1].name
      invariant st.total == old(st.total) && st.status == old(st.status)
    {
      rows, i, batches := ScanStep(st, root, toProcess, i, rows, batches, thumbDir, disk);
    }
    assert toProcess[..|toProcess|] == toProcess;
  }

  /** One turn of the batch loop: the slice at `i` is scanned and recorded,
      and the loop moves on to the next slice, or to the end of the list. */
  method ScanStep(st: Scanner.ScanStatus, root: string, toProcess: seq<WalkFile>, i: nat,
                  rows: seq<StoredRow>, ghost batches: seq<seq<WalkFile>>, thumbDir: string, disk: Scanner.Disk)
    returns (rows': seq<StoredRow>, next: nat, ghost batches': seq<seq<WalkFile>>)
    requires i < |toProcess|
    requires rows == StoredRowsOf(root, toProcess[..i], thumbDir, disk)
    requires Scanner.Flatten(batches) == toProcess[..i] && Scanner.Batched(batches, true)
    modifies st
    ensures next == Min(i + Scanner.BatchSize, |toProcess|) && i < next
    ensures rows' == StoredRowsOf(root, toProcess[..next], thumbDir, disk)
    ensures Scanner.Flatten(batches') == toProcess[..next]
    ensures Scanner.Batched(batches', next < |toProcess|)
    ensures st.current == old(st.current) + |rows'| - |rows|
    ensures st.lastFile == toProcess[next - 1].name
    ensures st.total == old(st.total) && st.status == old(st.status)
  {
    next := Min(i + Scanner.BatchSize, |toProcess|);
    rows' := ScanBatch(st, root, toProcess, i, next, rows, thumbDir, disk);
    Scanner.BatchStep(toProcess, batches, i, toProcess[i..next]);
    batches' := batches + [toProcess[i..next]];
  }

  /** `to_process`: the discovered files whose path is not stored after the
      ghost clean-up, in walk order. */
  function ToProcess(root: string, tree: seq<WalkFile>, db: set<string>, disk: Scanner.Disk): seq<WalkFile>
  {
    Filter(Filter(tree, Discovered), NotStored(root, db - Ghosts(db, disk)))
  }

  /** The stored paths the clean-up deletes: those no longer on disk. */
  function Ghosts(db: set<string>, disk: Scanner.Disk): set<string>
  {
    set p | p in db && !disk.onDisk(p)
  }

  /** `run_scan()` over the DreamBox tree rooted at `root`, the stored paths
      `db` and the file-system outcomes `disk`. Returns the inserted rows in
      insertion order and the deleted ghost paths; `batches` records the
      slices the batch loop walked. */
  method RunScan(st: Scanner.ScanStatus, root: string, tree: seq<WalkFile>, db: set<string>,
                 thumbDir: string, disk: Scanner.Disk)
    returns (rows: seq<StoredRow>, ghosts: set<string>, ghost batches: seq<seq<WalkFile>>)
    modifies st
    ensures ghosts == Ghosts(db, disk)
    ensures rows == StoredRowsOf(root, ToProcess(root, tree, db, disk), thumbDir, disk)
    ensures st.total == |ToProcess(root, tree, db, disk)|
    ensures st.current == |rows| <= st.total
    ensures st.status == "idle"
    ensures st.lastFile == if ToProcess(root, tree, db, disk) == [] then old(st.lastFile)
                           else ToProcess(root, tree, db, disk)[|ToProcess(root, tree, db, disk)| - 1].name
    ensures Scanner.Flatten(batches) == ToProcess(root, tree, db, disk)
    ensures Scanner.Batched(batches, false)
  {
    var toProcess;
    ghosts, toProcess := PendingFiles(root, tree, db, disk);
    rows, batches := IndexPending(st, root, toProcess, thumbDir, disk);
  }

  /** The part of `run_scan` after the filter: the status is reset to
      "indexing" with the number of pending files, the batches run when
      there is anything pending, and the status ends "idle". */
  method IndexPending(st: Scanner.ScanStatus, root: string, toProcess: seq<WalkFile>, thumbDir: string, disk: Scanner.Disk)
    returns (rows: seq<StoredRow>, ghost batches: seq<seq<WalkFile>>)
    modifies st
    ensures rows == StoredRowsOf(root, toProcess, thumbDir, disk)
    ensures st.total == |toProcess|
    ensures st.current == |rows| <= st.total
    ensures st.status == "idle"
    ensures st.lastFile == if toProcess == [] then old(st.lastFile) else toProcess[|toProcess| - 1].name
    ensures Scanner.Flatten(batches) == toProcess
    ensures Scanner.Batched(batches, false)
  {
    st.current, st.total, st.status := 0, |toProcess|, "indexing";
    rows := [];
    batches := [];
    if |toProcess| > 0 {
      rows, batches := ScanBatches(st, root, toProcess, thumbDir, disk);
    }
    StoredRowsCount(root, toProcess, thumbDir, disk);
    st.status := "idle";
  }

  /** The part of `run_scan` before the batches: the ghost clean-up, the
      discovery walk and the "new files only" filter. */
  method PendingFiles(root: string, tree: seq<WalkFile>, db: set<string>, disk: Scanner.Disk)
    returns (ghosts: set<string>, toProcess: seq<WalkFile>)
    ensures ghosts == Ghosts(db, disk)
    ensures toProcess == ToProcess(root, tree, db, disk)
  {
    ghosts := set p | p in db && !disk.onDisk(p);
    var allFiles := DiscoverImages(tree);
    var existing := db - ghosts;
    toProcess := Filter(allFiles, NotStored(root, existing));
  }

  /** A file is indexed exactly when it is discovered, not stored (or
      stored but gone from disk) and opens as an image. */
  lemma ToProcessExact(root: string, tree: seq<WalkFile>, db: set<string>, disk: Scanner.Disk, f: WalkFile)
    ensures f in ToProcess(root, tree, db, disk) <==>
      f in tree && Discovered(f) && (FullPath(root, f) !in db || !disk.onDisk(FullPath(root, f)))
  {
    var p := FullPath(root, f);
    if p in db && !disk.onDisk(p) {
      assert p in Ghosts(db, disk);
    }
  }

  // ---------------------------------------------------------------------
  // POST /api/scan

  /** A scan is refused while one is indexing and queued otherwise. */
  method StartScan(st: Scanner.ScanStatus) returns (queued: bool, reply: string)
    ensures queued <==> st.status != "indexing"
    ensures reply == if st.status == "indexing" then "already_running" else "started"
  {
    if st.status == "indexing" {
      return false, "already_running";
    }
    return true, "started";
  }

  // ---------------------------------------------------------------------
  // GET /api/search

  /** `str(Path(p).relative_to(DREAM_BOX))`, or the bare name when that
      raises, then `clean_path_for_web`. This never fails. */
  function ServerDisplayPath(path: string, dreamBox: string): (r: string)
    ensures StartsWith(path, dreamBox + "/") ==> r == Routes.WebPath(path[|dreamBox| + 1..])
    ensures Routes.RelativeTo(path, dreamBox).None? ==> r == Routes.WebPath(BaseName(path))
  {
    match Routes.RelativeTo(path, dreamBox)
    case Some(rel) => CleanPathForWeb(rel)
    case None => CleanPathForWeb(BaseName(path))
  }

  datatype ImageResult = ImageResult(path: string, score: real, displayPath: string, thumb: Option<string>)

  /** The result loop over the top-k hits: missing files are skipped, the
      thumbnail URL is given only when the thumbnail file exists. */
  function SearchResults(hits: seq<Routes.Hit>, dreamBox: string, disk: Scanner.Disk): (r: seq<ImageResult>)
    ensures |r| <= |hits|
  {
    if hits == [] then []
    else
      var rs := SearchResults(hits[..|hits| - 1], dreamBox, disk);
      var h := hits[|hits| - 1];
      var p := h.row.path;
      if !disk.onDisk(p) then rs else rs + [ResultFor(h, dreamBox, disk)]
  }

  /** One entry of the search reply; the thumbnail URL only when the
      thumbnail file exists. */
  function ResultFor(h: Routes.Hit, dreamBox: string, disk: Scanner.Disk): (r: ImageResult)
    ensures r.path == h.row.path && r.score == h.score
    ensures r.thumb.Some? <==> disk.thumbOnDisk(SafeThumbFilename(r.path))
    ensures r.thumb.Some? ==> r.thumb.value == "/thumbs/" + SafeThumbFilename(r.path)
  {
    var p := h.row.path;
    var name := SafeThumbFilename(p);
    var thumb := if disk.thumbOnDisk(name) then Some("/thumbs/" + name) else None;
    ImageResult(p, h.score, ServerDisplayPath(p, dreamBox), thumb)
  }

  /** Scores never increase along the list. */
  predicate HitsRanked(hits: seq<Routes.Hit>) {
    forall i, j :: 0 <= i < j < |hits| ==> hits[i].score >= hits[j].score
  }

  predicate ResultsRanked(r: seq<ImageResult>) {
    forall i, j :: 0 <= i < j < |r| ==> r[i].score >= r[j].score
  }

  /** Every result's file exists, and its thumbnail URL is given exactly
      when the thumbnail file exists. */
  lemma {:induction false} SearchResultsOnDisk(hits: seq<Routes.Hit>, dreamBox: string, disk: Scanner.Disk)
    ensures forall x :: x in SearchResults(hits, dreamBox, disk) ==> disk.onDisk(x.path)
    ensures forall x :: x in SearchResults(hits, dreamBox, disk) ==>
      (x.thumb.Some? <==> disk.thumbOnDisk(SafeThumbFilename(x.path)))
      && (x.thumb.Some? ==> x.thumb.value == "/thumbs/" + SafeThumbFilename(x.path))
  {
    if hits != [] {
      SearchResultsOnDisk(hits[..|hits| - 1], dreamBox, disk);
    }
  }

  function OnDiskHit(disk: Scanner.Disk): Routes.Hit -> bool
  {
    (h: Routes.Hit) => disk.onDisk(h.row.path)
  }

  /** The reply lists exactly the hits whose file is on disk, in hit order,
      each as its own entry. */
  lemma {:induction false} SearchResultsExact(hits: seq<Routes.Hit>, dreamBox: string, disk: Scanner.Disk)
    ensures var kept := Filter(hits, OnDiskHit(disk));
      && |SearchResults(hits, dreamBox, disk)| == |kept|
      && forall k :: 0 <= k < |kept| ==> SearchResults(hits, dreamBox, disk)[k] == ResultFor(kept[k], dreamBox, disk)
  {
    if hits != [] {
      var init := hits[..|hits| - 1];
      var h := hits[|hits| - 1];
      SearchResultsExact(init, dreamBox, disk);
      FilterLast(hits, OnDiskHit(disk));
      var keptInit := Filter(init, OnDiskHit(disk));
      var rs := SearchResults(init, dreamBox, disk);
      if !disk.onDisk(h.row.path) {
        assert Filter(hits, OnDiskHit(disk)) == keptInit;
        assert SearchResults(hits, dreamBox, disk) == rs;
      } else {
        assert Filter(hits, OnDiskHit(disk)) == keptInit + [h];
        assert SearchResults(hits, dreamBox, disk) == rs + [ResultFor(h, dreamBox, disk)];
      }
    }
  }

  /** Every result comes from a hit with the same path and score. */
  lemma {:induction false} SearchResultsFromHits(hits: seq<Routes.Hit>, dreamBox: string, disk: Scanner.Disk)
    ensures forall x :: x in SearchResults(hits, dreamBox, disk) ==>
      exists k :: 0 <= k < |hits| && hits[k].row.path == x.path && hits[k].score == x.score
  {
    if hits != [] {
      var init := hits[..|hits| - 1];
      SearchResultsFromHits(init, dreamBox, disk);
      forall x | x in SearchResults(hits, dreamBox, disk)
        ensures exists k :: 0 <= k < |hits| && hits[k].row.path == x.path && hits[k].score == x.score
      {
        if x in SearchResults(init, dreamBox, disk) {
          var k :| 0 <= k < |init| && init[k].row.path == x.path && init[k].score == x.score;
          assert hits[k] == init[k];
        } else {
          assert hits[|hits| - 1].row.path == x.path;
        }
      }
    }
  }

  /** When the hits come ranked by non-increasing score, so do the results:
      skipping files keeps the ranking order. */
  lemma {:induction false} SearchResultsRanked(hits: seq<Routes.Hit>, dreamBox: string, disk: Scanner.Disk)
    requires HitsRanked(hits)
    ensures ResultsRanked(SearchResults(hits, dreamBox, disk))
  {
    if hits != [] {
      var init := hits[..|hits| - 1];
      var h := hits[|hits| - 1];
      SearchResultsRanked(init, dreamBox, disk);
      SearchResultsFromHits(init, dreamBox, disk);
      var rs := SearchResults(init, dreamBox, disk);
      if disk.onDisk(h.row.path) {
        var x := ResultFor(h, dreamBox, disk);
        var r := rs + [x];
        forall y | y in rs ensures y.score >= x.score {
          var k :| 0 <= k < |init| && init[k].row.path == y.path && init[k].score == y.score;
          assert init[k] == hits[k];
        }
        forall i, j | 0 <= i < j < |r| ensures r[i].score >= r[j].score {
          if j == |rs| {
            assert r[i] in rs;
          } else {
            assert r[i] == rs[i] && r[j] == rs[j];
          }
        }
      }
    }
  }

  lemma SearchResultsStep(hits: seq<Routes.Hit>, k: nat, dreamBox: string, disk: Scanner.Disk)
    requires k < |hits|
    ensures disk.onDisk(hits[k].row.path) ==>
      SearchResults(hits[..k + 1], dreamBox, disk) == SearchResults(hits[..k], dreamBox, disk) + [ResultFor(hits[k], dreamBox, disk)]
    ensures !disk.onDisk(hits[k].row.path) ==>
      SearchResults(hits[..k + 1], dreamBox, disk) == SearchResults(hits[..k], dreamBox, disk)
  {
    assert hits[..k + 1][..k] == hits[..k];
  }

  /** GET /api/search. `ranked` is every stored image ranked by the encoder
      (empty exactly when no image is stored). */
  method Search(q: string, ranked: seq<Routes.Hit>, dreamBox: string, disk: Scanner.Disk)
    returns (results: seq<ImageResult>)
    ensures q == "" ==> results == []
    ensures q != "" ==> results == SearchResults(Take(ranked, SearchTopK), dreamBox, disk)
    ensures |results| <= SearchTopK
  {
    if q == "" {
      return [];
    }
    if ranked == [] {
      return [];
    }
    var hits := Take(ranked, SearchTopK);
    results := CollectResults(hits, dreamBox, disk);
  }

  /** The result loop of `search`: one result per hit whose file exists. */
  method CollectResults(hits: seq<Routes.Hit>, dreamBox: string, disk: Scanner.Disk)
    returns (results: seq<ImageResult>)
    ensures results == SearchResults(hits, dreamBox, disk)
  {
    results := [];
    for k := 0 to |hits|
      invariant results == SearchResults(hits[..k], dreamBox, disk)
    {
      SearchResultsStep(hits, k, dreamBox, disk);
      if disk.onDisk(hits[k].row.path) {
        results := results + [ResultFor(hits[k], dreamBox, disk)];
      }
    }
    assert hits[..|hits|] == hits;
  }

  // ---------------------------------------------------------------------
  // POST /api/weave

  /** Some anchor found in the table scores above 0.35 against `p`. */
  predicate Linked(anchors: seq<string>, p: string, sim: (string, string) -> real) {
    exists k :: 0 <= k < |anchors| && sim(anchors[k], p) > WeaveThreshold
  }

  /** `story_pool`: the requested anchor paths, and every stored path that
      some found anchor scores above 0.35 against. */
  function StoryPool(anchorPaths: seq<string>, found: seq<string>, allPaths: seq<string>,
                     sim: (string, string) -> real): set<string>
  {
    (set a | a in anchorPaths) + (set p | p in allPaths && Linked(found, p, sim))
  }

  /** The nested loop that grows the pool anchor by anchor. */
  method BuildPool(anchorPaths: seq<string>, found: seq<string>, allPaths: seq<string>, sim: (string, string) -> real)
    returns (pool: set<string>)
    ensures pool == StoryPool(anchorPaths, found, allPaths, sim)
  {
    pool := set a | a in anchorPaths;
    for ai := 0 to |found|
      invariant forall p :: p in pool <==> p in anchorPaths || (p in allPaths && Linked(found[..ai], p, sim))
    {
      for i := 0 to |allPaths|
        invariant forall p :: p in pool <==>
          || p in anchorPaths
          || (p in allPaths && Linked(found[..ai], p, sim))
          || (p in allPaths[..i] && sim(found[ai], p) > WeaveThreshold)
      {
        if sim(found[ai], allPaths[i]) > WeaveThreshold {
          pool := pool + {allPaths[i]};
        }
      }
      assert allPaths[..|allPaths|] == allPaths;
      forall p ensures Linked(found[..ai + 1], p, sim) <==> Linked(found[..ai], p, sim) || sim(found[ai], p) > WeaveThreshold {
        if Linked(found[..ai + 1], p, sim) {
          var k :| 0 <= k < ai + 1 && sim(found[..ai + 1][k], p) > WeaveThreshold;
          if k < ai {
            assert found[..ai][k] == found[..ai + 1][k];
          }
        }
        if Linked(found[..ai], p, sim) {
          var k :| 0 <= k < ai && sim(found[..ai][k], p) > WeaveThreshold;
          assert found[..ai + 1][k] == found[..ai][k];
        }
        if sim(found[ai], p) > WeaveThreshold {
          assert found[..ai + 1][ai] == found[ai];
        }
      }
    }
    assert found[..|found|] == found;
  }

  datatype WeaveResult = WeaveResult(path: string, score: real, displayPath: string, thumb: string)

  function InPool(pool: set<string>): string -> bool
  {
    p => p in pool
  }

  function WeaveResultOf(p: string, dreamBox: string): (r: WeaveResult)
    ensures r.path == p && r.score == 1.0 && r.thumb == "/thumbs/" + SafeThumbFilename(p)
  {
    WeaveResult(p, 1.0, ServerDisplayPath(p, dreamBox), "/thumbs/" + SafeThumbFilename(p))
  }

  /** The results: the stored rows in the pool, in table order. */
  function WeaveResults(allPaths: seq<string>, pool: set<string>, dreamBox: string): (r: seq<WeaveResult>)
    ensures |r| == |Filter(allPaths, InPool(pool))|
    ensures forall i :: 0 <= i < |r| ==> r[i] == WeaveResultOf(Filter(allPaths, InPool(pool))[i], dreamBox)
  {
    var kept := Filter(allPaths, InPool(pool));
    seq(|kept|, i requires 0 <= i < |kept| => WeaveResultOf(kept[i], dreamBox))
  }

  /** The reply of a weave whose anchors are found in the table. */
  function StoryResults(anchorPaths: seq<string>, allPaths: seq<string>, sim: (string, string) -> real,
                        dreamBox: string): seq<WeaveResult>
  {
    WeaveResults(allPaths, StoryPool(anchorPaths, Filter(allPaths, InAnchors(anchorPaths)), allPaths, sim), dreamBox)
  }

  /** POST /api/weave over the stored paths in table order. */
  method Weave(anchorPaths: seq<string>, allPaths: seq<string>, sim: (string, string) -> real, dreamBox: string)
    returns (results: seq<WeaveResult>)
    ensures results == if Filter(allPaths, InAnchors(anchorPaths)) == [] || allPaths == [] then []
                       else StoryResults(anchorPaths, allPaths, sim, dreamBox)
  {
    var found := Filter(allPaths, InAnchors(anchorPaths));
    if found == [] || allPaths == [] {
      return [];
    }
    var pool := BuildPool(anchorPaths, found, allPaths, sim);
    results := CollectWoven(allPaths, pool, dreamBox);
  }

  /** The result loop of `weave_story`: one entry per stored path in the
      pool, in table order. */
  method CollectWoven(allPaths: seq<string>, pool: set<string>, dreamBox: string)
    returns (results: seq<WeaveResult>)
    ensures results == WeaveResults(allPaths, pool, dreamBox)
  {
    results := [];
    for k := 0 to |allPaths|
      invariant results == WeaveResults(allPaths[..k], pool, dreamBox)
    {
      WeaveResultsStep(allPaths, k, pool, dreamBox);
      if allPaths[k] in pool {
        results := results + [WeaveResultOf(allPaths[k], dreamBox)];
      }
    }
    assert allPaths[..|allPaths|] == allPaths;
  }

  lemma WeaveResultsStep(allPaths: seq<string>, k: nat, pool: set<string>, dreamBox: string)
    requires k < |allPaths|
    ensures allPaths[k] in pool ==>
      WeaveResults(allPaths[..k + 1], pool, dreamBox) == WeaveResults(allPaths[..k], pool, dreamBox) + [WeaveResultOf(allPaths[k], dreamBox)]
    ensures allPaths[k] !in pool ==>
      WeaveResults(allPaths[..k + 1], pool, dreamBox) == WeaveResults(allPaths[..k], pool, dreamBox)
  {
    var a, b := WeaveResults(allPaths[..k + 1], pool, dreamBox), WeaveResults(allPaths[..k], pool, dreamBox);
    FilterSnoc(allPaths, k, InPool(pool));
    var kept := Filter(allPaths[..k], InPool(pool));
    if allPaths[k] in pool {
      assert Filter(allPaths[..k + 1], InPool(pool)) == kept + [allPaths[k]];
      assert a == b + [WeaveResultOf(allPaths[k], dreamBox)];
    } else {
      assert Filter(allPaths[..k + 1], InPool(pool)) == kept;
    }
  }

  function InAnchors(anchorPaths: seq<string>): string -> bool
  {
    p => p in anchorPaths
  }

  lemma AnchorInPool(anchorPaths: seq<string>, found: seq<string>, allPaths: seq<string>,
                     sim: (string, string) -> real, a: string)
    requires a in anchorPaths
    ensures a in StoryPool(anchorPaths, found, allPaths, sim)
  {
    assert a in (set b | b in anchorPaths);
  }

  /** Every requested anchor stored in the table is woven in. */
  lemma WeaveKeepsAnchors(anchorPaths: seq<string>, allPaths: seq<string>, sim: (string, string) -> real,
                          dreamBox: string, a: string)
    requires a in anchorPaths && a in allPaths
    ensures exists i :: 0 <= i < |StoryResults(anchorPaths, allPaths, sim, dreamBox)|
                        && StoryResults(anchorPaths, allPaths, sim, dreamBox)[i].path == a
  {
    var pool := StoryPool(anchorPaths, Filter(allPaths, InAnchors(anchorPaths)), allPaths, sim);
    var kept := Filter(allPaths, InPool(pool));
    AnchorInPool(anchorPaths, Filter(allPaths, InAnchors(anchorPaths)), allPaths, sim, a);
    assert InPool(pool)(a);
    assert a in kept;
    var i :| 0 <= i < |kept| && kept[i] == a;
    assert StoryResults(anchorPaths, allPaths, sim, dreamBox)[i].path == a;
  }

  /** Every woven entry is a stored path, in table order, scored 1.0. */
  lemma WeaveResultsStored(allPaths: seq<string>, pool: set<string>, dreamBox: string)
    ensures forall i :: 0 <= i < |WeaveResults(allPaths, pool, dreamBox)| ==>
      WeaveResults(allPaths, pool, dreamBox)[i].path in allPaths
      && WeaveResults(allPaths, pool, dreamBox)[i].path in pool
      && WeaveResults(allPaths, pool, dreamBox)[i].score == 1.0
  {
    var kept := Filter(allPaths, InPool(pool));
    forall i | 0 <= i < |kept| ensures kept[i] in allPaths && kept[i] in pool {
      assert kept[i] in kept;
      assert InPool(pool)(kept[i]);
    }
  }
}
