/** The background indexer of `app/scanner.py`: thumbnail names, the
    thumbnail generator's early returns, the time-source decision, and the
    `process_scan` pipeline that walks the DreamBox, keeps the new media
    files, orders images first and inserts them in batches of 32 while the
    shared `scan_status` counters advance.

    The file system is the `Disk` oracle: which paths exist, which
    thumbnails exist, which images open and which thumbnails render. The
    embedding vectors, the UMAP layout and the SQL statements are not part
    of the model; an inserted row is recorded as a `Row`. */
module Scanner {
  import opened Common
  import opened FileTree

  const ImageExts: seq<string> := [".jpg", ".jpeg", ".png", ".webp", ".bmp"]
  const AudioExts: seq<string> := [".mp3", ".wav", ".flac", ".m4a"]
  const BatchSize: nat := 32

  // ---------------------------------------------------------------------
  // thumb_name

  /** Colons dropped, then back-slashes and slashes turned into '_'. */
  function CleanName(p: string): (r: string)
    ensures ':' !in r && '\\' !in r && '/' !in r
    ensures |r| <= |p|
  {
    var a := Remove(p, ':');
    var b := Replace(a, '\\', '_');
    ReplaceAbsent(a, '\\', '_');
    ReplaceKeeps(a, '\\', '_', ':');
    ReplaceAbsent(b, '/', '_');
    ReplaceKeeps(b, '/', '_', ':');
    ReplaceKeeps(b, '/', '_', '\\');
    Replace(b, '/', '_')
  }

  lemma LowerJpg()
    ensures Lower(".jpg") == ".jpg"
  {
  }

  /** `thumb_name(p)`: a flat file name with no drive colon and no path
      separator, ending in ".jpg" in any letter case; ".jpg" is appended
      only when the cleaned name does not already end that way. */
  function ThumbName(p: string): (r: string)
    ensures ':' !in r && '\\' !in r && '/' !in r
    ensures EndsWith(Lower(r), ".jpg")
    ensures EndsWith(Lower(CleanName(p)), ".jpg") ==> r == CleanName(p)
    ensures !EndsWith(Lower(CleanName(p)), ".jpg") ==> r == CleanName(p) + ".jpg"
  {
    var clean := CleanName(p);
    if EndsWith(Lower(clean), ".jpg") then clean
    else
      LowerConcat(clean, ".jpg");
      LowerJpg();
      clean + ".jpg"
  }

  /** A thumbnail name is its own thumbnail name. */
  lemma ThumbNameIdempotent(p: string)
    ensures ThumbName(ThumbName(p)) == ThumbName(p)
  {
    var r := ThumbName(p);
    ReplaceIdentity(r, '\\', '_');
    ReplaceIdentity(r, '/', '_');
    assert CleanName(r) == r;
  }

  // ---------------------------------------------------------------------
  // gen_thumb

  function PathSuffix(path: string): string
  {
    Suffix(BaseName(path))
  }

  /** `gen_thumb(p)`. `thumbPresent` says whether the thumbnail file named
      `ThumbName(path)` already exists; `rendered` whether opening and
      shrinking the image succeeds. */
  function GenThumb(path: string, thumbPresent: bool, rendered: bool): (r: Option<string>)
    ensures Lower(PathSuffix(path)) in AudioExts ==> r == None
    ensures r.Some? ==> r.value == ThumbName(path)
    ensures Lower(PathSuffix(path)) !in AudioExts ==>
      (r.Some? <==> thumbPresent || rendered)
  {
    if Lower(PathSuffix(path)) in AudioExts then None
    else if thumbPresent then Some(ThumbName(path))
    else if rendered then Some(ThumbName(path))
    else None
  }

  // ---------------------------------------------------------------------
  // get_metadata: the EXIF table and the time source

  datatype ExifValue = Scalar(text: string) | Opaque

  /** One EXIF entry with its tag already decoded to a name. */
  datatype ExifEntry = ExifEntry(tag: string, value: ExifValue)

  /** Maker notes, print-matching blobs and non-scalar values are skipped. */
  predicate KeptExif(e: ExifEntry) {
    e.tag != "PrintImageMatching" && e.tag != "MakerNote" && e.value.Scalar?
  }

  /** No kept entry with the same tag follows entry `i` below index `n`. */
  predicate LastKeptBefore(entries: seq<ExifEntry>, i: nat, n: nat)
    requires i < n <= |entries|
  {
    forall j :: i < j < n && entries[j].tag == entries[i].tag ==> !KeptExif(entries[j])
  }

  /** Some kept entry below index `n` has tag `t`. */
  predicate HasKept(entries: seq<ExifEntry>, n: nat, t: string)
    requires n <= |entries|
  {
    exists i :: 0 <= i < n && entries[i].tag == t && KeptExif(entries[i])
  }

  lemma HasKeptStep(entries: seq<ExifEntry>, n: nat, t: string)
    requires n < |entries|
    ensures HasKept(entries, n + 1, t) <==>
      HasKept(entries, n, t) || (entries[n].tag == t && KeptExif(entries[n]))
  {
    if HasKept(entries, n + 1, t) && !(entries[n].tag == t && KeptExif(entries[n])) {
      var i :| 0 <= i < n + 1 && entries[i].tag == t && KeptExif(entries[i]);
      assert i < n;
    }
  }

  /** The `meta["exif"]` loop: each kept entry is stored under its tag, a
      later entry overwriting an earlier one. */
  method ReadExif(entries: seq<ExifEntry>) returns (exif: map<string, string>)
    ensures forall t :: t in exif <==> HasKept(entries, |entries|, t)
    ensures forall i :: 0 <= i < |entries| && KeptExif(entries[i]) && LastKeptBefore(entries, i, |entries|) ==>
      entries[i].tag in exif && exif[entries[i].tag] == entries[i].value.text
  {
    exif := map[];
    for k := 0 to |entries|
      invariant forall t :: t in exif <==> HasKept(entries, k, t)
      invariant forall i :: 0 <= i < k && KeptExif(entries[i]) && LastKeptBefore(entries, i, k) ==>
        entries[i].tag in exif && exif[entries[i].tag] == entries[i].value.text
    {
      var e := entries[k];
      forall t ensures HasKept(entries, k + 1, t) <==> HasKept(entries, k, t) || (e.tag == t && KeptExif(e)) {
        HasKeptStep(entries, k, t);
      }
      if KeptExif(e) {
        exif := exif[e.tag := e.value.text];
      }
      forall i | 0 <= i < k + 1 && KeptExif(entries[i]) && LastKeptBefore(entries, i, k + 1)
        ensures entries[i].tag in exif && exif[entries[i].tag] == entries[i].value.text
      {
        if i < k {
          assert LastKeptBefore(entries, i, k);
          if entries[i].tag == e.tag {
            assert !KeptExif(e);
          }
        }
      }
    }
  }

  datatype TimeInfo = TimeInfo(tsReal: Option<int>, confidence: real, source: string)

  const DateTag: string := "DateTimeOriginal"

  /** The time-source decision of `get_metadata`. `exif` is the table read
      from the image (empty when the file is not an image, does not open or
      has no EXIF); `parse` is `strptime` + `mktime`, `None` on failure. */
  function TimeSource(imageSuffix: bool, exif: map<string, string>, parse: string -> Option<int>): (t: TimeInfo)
    ensures t.source == "exif" <==>
      imageSuffix && DateTag in exif && exif[DateTag] != "" && parse(exif[DateTag]).Some?
    ensures t.source == "exif" ==> t.confidence == 1.0 && t.tsReal == parse(exif[DateTag]) && t.tsReal.Some?
    ensures t.source != "exif" ==> t == TimeInfo(None, 0.1, "os")
  {
    var fallback := TimeInfo(None, 0.1, "os");
    if imageSuffix && DateTag in exif && exif[DateTag] != "" then
      match parse(exif[DateTag])
      case Some(ts) => TimeInfo(Some(ts), 1.0, "exif")
      case None => fallback
    else fallback
  }

  // ---------------------------------------------------------------------
  // process_scan: discovery, work list, ordering

  /** The outcome of every file-system and image-library call the scan makes. */
  datatype Disk = Disk(
    onDisk: string -> bool,                  // os.path.exists
    thumbOnDisk: string -> bool,             // (THUMB_DIR / name).exists()
    opens: string -> bool,                   // Image.open succeeds
    renders: string -> bool,                 // the thumbnail is written
    exifOf: string -> map<string, string>,   // the EXIF table get_metadata reads
    parseDate: string -> Option<int>)

  /** The walk keeps a file whose name does not start with '.' and whose
      lower-cased name ends with one of the image or audio extensions.
      Directories are not pruned. */
  predicate Discovered(f: WalkFile) {
    !StartsWith(f.name, ".") && EndsWithAny(Lower(f.name), ImageExts + AudioExts)
  }

  /** `p.suffix.lower() in IMAGE_EXTS`, the test that sorts and splits. */
  predicate IsImageFile(f: WalkFile) {
    Lower(Suffix(f.name)) in ImageExts
  }

  /** `str(f) not in all_db`. */
  function Fresh(root: string, fs: seq<WalkFile>, db: set<string>): seq<WalkFile>
  {
    Filter(fs, f => FullPath(root, f) !in db)
  }

  /** `to_process`: the discovered files whose path is not stored yet, in walk order. */
  function WorkList(root: string, walk: seq<WalkFile>, db: set<string>): seq<WalkFile>
  {
    Fresh(root, Filter(walk, Discovered), db)
  }

  lemma WorkListExact(root: string, walk: seq<WalkFile>, db: set<string>, f: WalkFile)
    ensures f in WorkList(root, walk, db) <==> f in walk && Discovered(f) && FullPath(root, f) !in db
  {
  }

  function KindKey(f: WalkFile): real
  {
    if IsImageFile(f) then 0.0 else 1.0
  }

  /** `to_process.sort(key=lambda p: 0 if image else 1)`, a stable sort. */
  function ImagesFirst(fs: seq<WalkFile>): seq<WalkFile>
  {
    SortBy(fs, KindKey)
  }

  predicate NotImageFile(f: WalkFile) {
    !IsImageFile(f)
  }

  lemma {:induction false} WithKeyKinds(s: seq<WalkFile>)
    ensures WithKey(s, KindKey, 0.0) == Filter(s, IsImageFile)
    ensures WithKey(s, KindKey, 1.0) == Filter(s, NotImageFile)
  {
    if s != [] {
      WithKeyKinds(s[1..]);
    }
  }

  /** The reordering is a permutation that puts every image before every
      other file and keeps the relative order inside each group. */
  lemma ImagesFirstShape(fs: seq<WalkFile>)
    ensures multiset(ImagesFirst(fs)) == multiset(fs)
    ensures forall i, j :: 0 <= i < j < |fs| && IsImageFile(ImagesFirst(fs)[j]) ==> IsImageFile(ImagesFirst(fs)[i])
    ensures Filter(ImagesFirst(fs), IsImageFile) == Filter(fs, IsImageFile)
    ensures Filter(ImagesFirst(fs), NotImageFile) == Filter(fs, NotImageFile)
  {
    var r := ImagesFirst(fs);
    forall i, j | 0 <= i < j < |fs| && IsImageFile(r[j]) ensures IsImageFile(r[i]) {
      assert KindKey(r[i]) <= KindKey(r[j]);
    }
    SortByStable(fs, KindKey, 0.0);
    SortByStable(fs, KindKey, 1.0);
    WithKeyKinds(fs);
    WithKeyKinds(r);
  }

  lemma LowerDot(c: char)
    ensures LowerChar(c) == '.' <==> c == '.'
  {
  }

  /** For a name that does not start with '.', the suffix test and the
      name-ending test agree on every extension list of the configured shape:
      a discovered file is an image by suffix exactly when its name ends with
      an image extension. */
  lemma SuffixMatchesEnding(name: string, exts: seq<string>)
    requires name != [] && name[0] != '.'
    requires forall k :: 0 <= k < |exts| ==> |exts[k]| >= 2 && exts[k][0] == '.' && '.' !in exts[k][1..]
    ensures Lower(Suffix(name)) in exts <==> EndsWithAny(Lower(name), exts)
  {
    if EndsWithAny(Lower(name), exts) {
      var k :| 0 <= k < |exts| && EndsWith(Lower(name), exts[k]);
      EndingIsSuffix(name, exts[k]);
    }
    if Lower(Suffix(name)) in exts {
      var k :| 0 <= k < |exts| && exts[k] == Lower(Suffix(name));
      SuffixIsEnding(name);
    }
  }

  /** A name ending (in any letter case) with a one-dot extension has that
      extension as its suffix. */
  lemma EndingIsSuffix(name: string, e: string)
    requires name != [] && name[0] != '.'
    requires |e| >= 2 && e[0] == '.' && '.' !in e[1..]
    requires EndsWith(Lower(name), e)
    ensures Lower(Suffix(name)) == e
  {
    var low := Lower(name);
    var i := LastIndexOf(name, '.');
    var j := |name| - |e|;
    assert low[j] == e[0];
    LowerDot(name[j]);
    forall m | j < m < |name| ensures name[m] != '.' {
      assert low[m] == e[m - j] && e[m - j] in e[1..];
      LowerDot(name[m]);
    }
    assert i == j;
    LowerSlice(name, j);
    assert Suffix(name) == name[j..];
  }

  /** A non-empty suffix is an ending of the name, in any letter case. */
  lemma SuffixIsEnding(name: string)
    requires Suffix(name) != ""
    ensures EndsWith(Lower(name), Lower(Suffix(name)))
  {
    LowerEndsWith(name, Suffix(name));
  }

  /** Every discovered file that is not an image by suffix carries an audio
      extension, so the two insert paths see only configured media. */
  lemma DiscoveredKinds(f: WalkFile)
    requires Discovered(f)
    ensures IsImageFile(f) <==> EndsWithAny(Lower(f.name), ImageExts)
    ensures !IsImageFile(f) ==> EndsWithAny(Lower(f.name), AudioExts)
  {
    SuffixMatchesEnding(f.name, ImageExts);
    var exts := ImageExts + AudioExts;
    var k :| 0 <= k < |exts| && EndsWith(Lower(f.name), exts[k]);
    if k >= |ImageExts| {
      assert AudioExts[k - |ImageExts|] == exts[k];
    } else {
      assert ImageExts[k] == exts[k];
    }
  }

  lemma ThumbNameOfAbsolute(p: string)
    requires p != [] && p[0] == '/'
    ensures ThumbName(p) != [] && ThumbName(p)[0] == '_'
  {
    var a := Remove(p, ':');
    assert a[0] == '/';
    var b := Replace(a, '\\', '_');
    assert b[0] == '/';
    assert CleanName(p)[0] == '_';
  }

  lemma ImageExtsShape()
    ensures forall k :: 0 <= k < |ImageExts| ==> |ImageExts[k]| >= 2 && ImageExts[k][0] == '.' && '.' !in ImageExts[k][1..]
  {
  }

  /** The thumbnail directory sits inside the DreamBox and the walk does not
      prune it, so the thumbnail of an absolute path is itself discovered as
      an image on the next scan. */
  lemma ThumbnailRediscovered(p: string)
    requires p != [] && p[0] == '/'
    ensures Discovered(WalkFile([".thumbs"], ThumbName(p)))
    ensures IsImageFile(WalkFile([".thumbs"], ThumbName(p)))
  {
    var name := ThumbName(p);
    ThumbNameOfAbsolute(p);
    EndsWithAnyAppend(Lower(name), ImageExts, AudioExts, 0);
    ImageExtsShape();
    SuffixMatchesEnding(name, ImageExts);
  }

  /** `missing_thumbs`: stored image paths (by lower-cased ending) whose
      file exists but whose thumbnail does not; each gets `gen_thumb`. */
  function MissingThumbs(db: set<string>, disk: Disk): set<string>
  {
    set p | p in db && EndsWithAny(Lower(p), ImageExts) && !disk.thumbOnDisk(ThumbName(p)) && disk.onDisk(p)
  }

  // ---------------------------------------------------------------------
  // process_scan: the inserted rows

  datatype Row =
    | ImageRow(path: string, time: TimeInfo, thumb: Option<string>)
    | AudioRow(path: string, time: TimeInfo)

  function TimeOf(root: string, f: WalkFile, disk: Disk): TimeInfo
  {
    var p := FullPath(root, f);
    TimeSource(IsImageFile(f), disk.exifOf(p), disk.parseDate)
  }

  /** What one file of a batch contributes: an image row when the image
      opens (nothing otherwise), an audio row for every other file. */
  function RowOf(root: string, f: WalkFile, disk: Disk): seq<Row>
  {
    var p := FullPath(root, f);
    if IsImageFile(f) then
      (if disk.opens(p) then
         [ImageRow(p, TimeOf(root, f, disk), GenThumb(p, disk.thumbOnDisk(ThumbName(p)), disk.renders(p)))]
       else [])
    else [AudioRow(p, TimeOf(root, f, disk))]
  }

  function RowFn(root: string, disk: Disk): WalkFile -> seq<Row>
  {
    f => RowOf(root, f, disk)
  }

  /** The rows of a list of files, in list order. */
  function RowsOf(root: string, fs: seq<WalkFile>, disk: Disk): seq<Row>
  {
    FlatMap(fs, RowFn(root, disk))
  }

  lemma {:induction false} RowsOfLength(root: string, fs: seq<WalkFile>, disk: Disk)
    ensures |RowsOf(root, fs, disk)| <= |fs|
  {
    if fs != [] {
      RowsOfLength(root, fs[..|fs| - 1], disk);
    }
  }

  /** Every audio row is dated by the file system, with confidence 0.1. */
  lemma {:induction false} AudioRowsAreOsTimed(root: string, fs: seq<WalkFile>, disk: Disk)
    ensures forall r :: r in RowsOf(root, fs, disk) && r.AudioRow? ==> r.time == TimeInfo(None, 0.1, "os")
  {
    if fs != [] {
      AudioRowsAreOsTimed(root, fs[..|fs| - 1], disk);
      var last := fs[|fs| - 1];
      assert RowsOf(root, fs, disk) == RowsOf(root, fs[..|fs| - 1], disk) + RowOf(root, last, disk);
    }
  }

  function Flatten<T>(bs: seq<seq<T>>): seq<T>
  {
    if bs == [] then [] else Flatten(bs[..|bs| - 1]) + bs[|bs| - 1]
  }

  // ---------------------------------------------------------------------
  // scan_status and process_scan

  /** The module-level `scan_status` dictionary shared with the routes. */
  class ScanStatus {
    var current: nat
    var total: nat
    var status: string
    var lastFile: string

    constructor ()
      ensures current == 0 && total == 0 && status == "idle" && lastFile == ""
    {
      current, total, status, lastFile := 0, 0, "idle", "";
    }
  }

  /** The `os.walk` loop that collects `all_files`. */
  method DiscoverFiles(walk: seq<WalkFile>) returns (allFiles: seq<WalkFile>)
    ensures allFiles == Filter(walk, Discovered)
  {
    allFiles := [];
    for k := 0 to |walk|
      invariant allFiles == Filter(walk[..k], Discovered)
    {
      FilterSnoc(walk, k, Discovered);
      if Discovered(walk[k]) {
        allFiles := allFiles + [walk[k]];
      }
    }
    assert walk[..|walk|] == walk;
  }

  /** The per-batch loop that sorts files into `imgs` (images that open)
      and `auds` (every other file). */
  method SplitBatch(root: string, batch: seq<WalkFile>, disk: Disk) returns (imgs: seq<Row>, auds: seq<Row>)
    ensures imgs == FlatMapWhere(batch, RowFn(root, disk), IsImageFile, true)
    ensures auds == FlatMapWhere(batch, RowFn(root, disk), IsImageFile, false)
  {
    imgs, auds := [], [];
    var g := RowFn(root, disk);
    for k := 0 to |batch|
      invariant imgs == FlatMapWhere(batch[..k], g, IsImageFile, true)
      invariant auds == FlatMapWhere(batch[..k], g, IsImageFile, false)
    {
      FlatMapWhereSnoc(batch, g, IsImageFile, k);
      var f := batch[k];
      var p := FullPath(root, f);
      assert g(f) == RowOf(root, f, disk);
      if IsImageFile(f) {
        if disk.opens(p) {
          imgs := imgs + RowOf(root, f, disk);
        }
      } else {
        auds := auds + RowOf(root, f, disk);
      }
    }
    assert batch[..|batch|] == batch;
  }

  /** One `INSERT` per row, each followed by `scan_status["current"] += 1`. */
  method InsertRows(st: ScanStatus, rows: seq<Row>, more: seq<Row>) returns (rows': seq<Row>)
    modifies st
    ensures rows' == rows + more
    ensures st.current == old(st.current) + |more|
    ensures st.total == old(st.total) && st.status == old(st.status) && st.lastFile == old(st.lastFile)
  {
    rows' := rows;
    for j := 0 to |more|
      invariant rows' == rows + more[..j]
      invariant st.current == old(st.current) + j
      invariant st.total == old(st.total) && st.status == old(st.status) && st.lastFile == old(st.lastFile)
    {
      assert more[..j + 1] == more[..j] + [more[j]];
      rows' := rows' + [more[j]];
      st.current := st.current + 1;
    }
    assert more[..|more|] == more;
  }

  /** A slice of the image-first order is itself image-first. */
  lemma ImagesFirstSlice(sorted: seq<WalkFile>, lo: nat, hi: nat)
    requires SortedBy(sorted, KindKey) && lo <= hi <= |sorted|
    ensures forall a, b :: 0 <= a < b < hi - lo && IsImageFile(sorted[lo..hi][b]) ==> IsImageFile(sorted[lo..hi][a])
  {
    forall a, b | 0 <= a < b < hi - lo && IsImageFile(sorted[lo..hi][b]) ensures IsImageFile(sorted[lo..hi][a]) {
      assert KindKey(sorted[lo + a]) <= KindKey(sorted[lo + b]);
    }
  }

  lemma FlattenSnoc<T>(bs: seq<seq<T>>, b: seq<T>)
    ensures Flatten(bs + [b]) == Flatten(bs) + b
  {
    assert (bs + [b])[..|bs|] == bs;
  }

  /** Inserting one image-first batch, images then audio, extends the rows
      of the prefix before it by the rows of the batch in batch order. */
  lemma BatchRows(root: string, sorted: seq<WalkFile>, i: nat, end: nat, disk: Disk)
    requires SortedBy(sorted, KindKey) && i <= end <= |sorted|
    ensures RowsOf(root, sorted[..end], disk)
         == RowsOf(root, sorted[..i], disk)
            + FlatMapWhere(sorted[i..end], RowFn(root, disk), IsImageFile, true)
            + FlatMapWhere(sorted[i..end], RowFn(root, disk), IsImageFile, false)
  {
    ImagesFirstSlice(sorted, i, end);
    assert sorted[..end] == sorted[..i] + sorted[i..end];
    SplitBatchRows(root, sorted[..i], sorted[i..end], disk);
  }

  lemma SplitBatchRows(root: string, prefix: seq<WalkFile>, batch: seq<WalkFile>, disk: Disk)
    requires forall a, b :: 0 <= a < b < |batch| && IsImageFile(batch[b]) ==> IsImageFile(batch[a])
    ensures RowsOf(root, prefix + batch, disk)
         == RowsOf(root, prefix, disk)
            + FlatMapWhere(batch, RowFn(root, disk), IsImageFile, true)
            + FlatMapWhere(batch, RowFn(root, disk), IsImageFile, false)
  {
    FlatMapAppendSplit(prefix, batch, RowFn(root, disk), IsImageFile);
  }

  /** One pass of the batch loop: the slice starting at `i`, its images
      inserted first and its audio files second. */
  method ProcessBatch(st: ScanStatus, root: string, sorted: seq<WalkFile>, i: nat, rows: seq<Row>, disk: Disk)
    returns (rows': seq<Row>, batch: seq<WalkFile>)
    requires SortedBy(sorted, KindKey) && i < |sorted|
    requires rows == RowsOf(root, sorted[..i], disk)
    modifies st
    ensures batch == sorted[i..Min(i + BatchSize, |sorted|)]
    ensures rows' == RowsOf(root, sorted[..Min(i + BatchSize, |sorted|)], disk)
    ensures st.current == old(st.current) + |rows'| - |rows|
    ensures st.total == old(st.total) && st.status == old(st.status) && st.lastFile == old(st.lastFile)
  {
    var end := Min(i + BatchSize, |sorted|);
    batch := sorted[i..end];
    var imgs, auds := SplitBatch(root, batch, disk);
    rows' := InsertRows(st, rows, imgs);
    rows' := InsertRows(st, rows', auds);
    BatchRows(root, sorted, i, end, disk);
  }

  /** Every batch holds 1 to 32 files and all but the last exactly 32 (the
      last too when `allFull`). */
  ghost predicate Batched<T>(batches: seq<seq<T>>, allFull: bool) {
    && (forall k :: 0 <= k < |batches| ==> 0 < |batches[k]| <= BatchSize)
    && (forall k :: 0 <= k < |batches| - 1 ==> |batches[k]| == BatchSize)
    && (allFull ==> forall k :: 0 <= k < |batches| ==> |batches[k]| == BatchSize)
  }

  lemma BatchedSnoc<T>(batches: seq<seq<T>>, batch: seq<T>)
    requires Batched(batches, true) && 0 < |batch| <= BatchSize
    ensures Batched(batches + [batch], |batch| == BatchSize)
  {
    var bs := batches + [batch];
    forall k | 0 <= k < |bs| ensures 0 < |bs[k]| <= BatchSize && (k < |bs| - 1 ==> |bs[k]| == BatchSize) {
      if k < |batches| {
        assert bs[k] == batches[k];
      }
    }
  }

  lemma BatchExtends<T>(sorted: seq<T>, batches: seq<seq<T>>, i: nat, batch: seq<T>)
    requires i < |sorted| && Flatten(batches) == sorted[..i]
    requires batch == sorted[i..Min(i + BatchSize, |sorted|)]
    ensures Flatten(batches + [batch]) == sorted[..Min(i + BatchSize, |sorted|)]
  {
    FlattenSnoc(batches, batch);
    assert sorted[..Min(i + BatchSize, |sorted|)] == sorted[..i] + batch;
  }

  /** One more slice of 32 (or the rest) keeps the slices a cut of the
      list walked so far; only a full slice lets the walk go on. */
  lemma BatchStep<T>(sorted: seq<T>, batches: seq<seq<T>>, i: nat, batch: seq<T>)
    requires i < |sorted| && Flatten(batches) == sorted[..i] && Batched(batches, true)
    requires batch == sorted[i..Min(i + BatchSize, |sorted|)]
    ensures Flatten(batches + [batch]) == sorted[..Min(i + BatchSize, |sorted|)]
    ensures Batched(batches + [batch], i + BatchSize <= |sorted|)
    ensures Batched(batches + [batch], Min(i + BatchSize, |sorted|) < |sorted|)
  {
    BatchExtends(sorted, batches, i, batch);
    BatchedSnoc(batches, batch);
  }

  /** The batch loop: `to_process` (already image-first) is cut into slices
      of 32, each split into images and audio and inserted in that order. */
  method RunBatches(st: ScanStatus, root: string, sorted: seq<WalkFile>, disk: Disk)
    returns (rows: seq<Row>, ghost batches: seq<seq<WalkFile>>)
    requires SortedBy(sorted, KindKey)
    modifies st
    ensures rows == RowsOf(root, sorted, disk)
    ensures st.current == old(st.current) + |rows|
    ensures st.total == old(st.total) && st.status == old(st.status) && st.lastFile == old(st.lastFile)
    ensures Flatten(batches) == sorted
    ensures Batched(batches, false)
  {
    rows := [];
    batches := [];
    var i := 0;
    while i < |sorted|
      invariant rows == RowsOf(root, sorted[..Min(i, |sorted|)], disk)
      invariant Flatten(batches) == sorted[..Min(i, |sorted|)]
      invariant Batched(batches, i <= |sorted|)
      invariant st.current == old(st.current) + |rows|
      invariant st.total == old(st.total) && st.status == old(st.status) && st.lastFile == old(st.lastFile)
      decreases |sorted| - i
    {
      var batch;
      rows, batch := ProcessBatch(st, root, sorted, i, rows, disk);
      BatchStep(sorted, batches, i, batch);
      batches := batches + [batch];
      i := i + BatchSize;
    }
    assert sorted[..|sorted|] == sorted;
  }

  /** `process_scan()` over the walk of the DreamBox rooted at `root`, the
      stored paths `db` and the file-system outcomes `disk`. Returns the rows
      inserted (in insertion order), the stored paths deleted as ghosts and
      the stored paths whose thumbnail is regenerated; `batches` records the
      slices the batch loop walked. */
  method ProcessScan(st: ScanStatus, root: string, walk: seq<WalkFile>, db: set<string>, disk: Disk)
    returns (rows: seq<Row>, ghosts: set<string>, regenerated: set<string>, ghost batches: seq<seq<WalkFile>>)
    modifies st
    ensures rows == RowsOf(root, ImagesFirst(WorkList(root, walk, db)), disk)
    ensures st.total == |WorkList(root, walk, db)|
    ensures st.current == |rows| <= st.total
    ensures st.status == "idle" && st.lastFile == old(st.lastFile)
    ensures ghosts == set p | p in db && !disk.onDisk(p)
    ensures regenerated == MissingThumbs(db, disk)
    ensures Flatten(batches) == ImagesFirst(WorkList(root, walk, db))
    ensures Batched(batches, false)
  {
    var allFiles := DiscoverFiles(walk);
    regenerated := MissingThumbs(db, disk);
    var toProcess := Fresh(root, allFiles, db);
    ghosts := set p | p in db && !disk.onDisk(p);

    st.current, st.total, st.status := 0, |toProcess|, "indexing";

    var sorted := ImagesFirst(toProcess);
    rows, batches := RunBatches(st, root, sorted, disk);
    RowsOfLength(root, sorted, disk);
    st.status := "idle";
  }
}
