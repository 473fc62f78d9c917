/** The preview overlay of `Inspector.jsx`: what it derives from the
    previewed item (the raw URL, the image URL, the title, the confidence,
    the identities, the date label, the play icon) and its quick-teach
    handler with the typed name it keeps. */
module Inspector {
  import opened Common
  import opened Media
  import opened WebUrl

  // ---------------------------------------------------------------------
  // Confidence

  function RMin(a: real, b: real): real { if a <= b then a else b }

  function RMax(a: real, b: real): real { if a <= b then b else a }

  /** `Math.min(100, Math.max(0, (score || 0) * 100))`: a percentage in
      [0, 100]; a missing score counts as 0, a score in [0, 1] scales by
      100, and anything outside is cut to the nearer end. */
  function Confidence(score: Option<real>): (c: real)
    ensures 0.0 <= c <= 100.0
    ensures score.None? ==> c == 0.0
    ensures score.Some? && 0.0 <= score.value <= 1.0 ==> c == score.value * 100.0
    ensures score.Some? && score.value < 0.0 ==> c == 0.0
    ensures score.Some? && score.value > 1.0 ==> c == 100.0
  {
    var s := if score.Some? then score.value else 0.0;
    RMin(100.0, RMax(0.0, s * 100.0))
  }

  /** A higher score never shows a lower confidence. */
  lemma ConfidenceMonotone(a: real, b: real)
    requires a <= b
    ensures Confidence(Some(a)) <= Confidence(Some(b))
  {
    assert a * 100.0 <= b * 100.0;
  }

  // ---------------------------------------------------------------------
  // Title: `display_path.split('/').pop().split('.')[0]`

  function LastSegment(path: string): (r: string)
    ensures '/' !in r
  {
    var segs := Split(path, '/');
    segs[|segs| - 1]
  }

  function Title(displayPath: string): (r: string)
    ensures '.' !in r && '/' !in r
    ensures StartsWith(LastSegment(displayPath), r)
    ensures |r| == |LastSegment(displayPath)| || LastSegment(displayPath)[|r|] == '.'
  {
    var name := LastSegment(displayPath);
    SplitFirstPrefix(name, '.');
    Split(name, '.')[0]
  }

  /** The first piece of a split is a prefix of the string that runs up to
      the first separator or to the end. */
  lemma {:induction false} SplitFirstPrefix(s: string, c: char)
    ensures StartsWith(s, Split(s, c)[0])
    ensures |Split(s, c)[0]| == |s| || s[|Split(s, c)[0]|] == c
  {
    if s != [] {
      SplitFirstPrefix(s[1..], c);
    }
  }

  /** The last piece of a split after a separator is whatever follows the
      last separator. */
  lemma {:induction false} SplitLast(s: string, c: char, t: string)
    requires c !in t
    ensures var segs := Split(s + [c] + t, c); |segs| >= 2 && segs[|segs| - 1] == t
  {
    if s == [] {
      assert s + [c] + t == [c] + t;
      assert ([c] + t)[1..] == t;
      SplitPlain(t, c);
    } else {
      SplitLast(s[1..], c, t);
      assert (s + [c] + t)[1..] == s[1..] + [c] + t;
    }
  }

  /** The title of `dir/stem.ext` is `stem`, whatever directories come
      before; a file name without an extension is its own title. */
  lemma TitleOfFile(dir: string, stem: string, ext: string)
    requires '/' !in stem && '.' !in stem && '/' !in ext
    ensures Title(dir + "/" + stem + "." + ext) == stem
    ensures Title(dir + "/" + stem) == stem
    ensures Title(stem + "." + ext) == stem
    ensures Title(stem) == stem
  {
    SplitLast(dir, '/', stem + "." + ext);
    assert dir + "/" + stem + "." + ext == dir + ['/'] + (stem + "." + ext);
    SplitAfterPlain(stem, ext, '.');
    assert stem + "." + ext == stem + ['.'] + ext;
    SplitLast(dir, '/', stem);
    assert dir + "/" + stem == dir + ['/'] + stem;
    SplitPlain(stem, '.');
    assert stem + "." + ext == stem + ['.'] + ext;
    SplitPlain(stem + ['.'] + ext, '/');
    SplitPlain(stem, '/');
  }

  // ---------------------------------------------------------------------
  // The derived view

  /** `previewItem.ts ? new Date(ts * 1000).toLocaleString(...) : 'Unknown Timeline'`. */
  datatype DateLabel = UnknownTimeline | At(millis: int)

  datatype View = View(
    rawUrl: string,
    imgUrl: Option<string>,
    title: string,
    confidence: real,
    knownHere: seq<string>,
    date: DateLabel,
    showsPause: bool)

  /** Everything the overlay derives from its props; nothing is rendered
      without a preview item. */
  function Render(previewItem: Option<Item>, apiBase: string, currentTrack: Option<Item>, isPlaying: bool): (v: Option<View>)
    ensures v.None? <==> previewItem.None?
    ensures v.Some? ==> (v.value.imgUrl.None? <==> IsAudio(previewItem.value))
    ensures v.Some? && v.value.imgUrl.Some? ==> v.value.imgUrl.value == v.value.rawUrl
    ensures v.Some? ==> (v.value.date == UnknownTimeline <==> previewItem.value.ts.None? || previewItem.value.ts.value == 0)
    ensures v.Some? ==> (previewItem.value.identities.None? ==> v.value.knownHere == [])
  {
    match previewItem
    case None => None
    case Some(it) =>
      var raw := RawUrl(apiBase, it.displayPath);
      Some(View(
        raw,
        if IsAudio(it) then None else Some(raw),
        Title(it.displayPath),
        Confidence(it.score),
        if it.identities.Some? then it.identities.value else [],
        if it.ts.Some? && it.ts.value != 0 then At(it.ts.value * 1000) else UnknownTimeline,
        isPlaying && currentTrack.Some? && currentTrack.value.path == it.path))
  }

  /** The raw URL keeps the '/' separators of the display path and encodes
      each segment on its own. */
  lemma RawUrlSegments(it: Item, apiBase: string, currentTrack: Option<Item>, isPlaying: bool)
    ensures var v := Render(Some(it), apiBase, currentTrack, isPlaying).value;
      && StartsWith(v.rawUrl, apiBase + "/raw/")
      && Split(v.rawUrl[|apiBase + "/raw/"|..], '/') == EncodeAll(Split(it.displayPath, '/'))
  {
    var v := Render(Some(it), apiBase, currentTrack, isPlaying).value;
    EncodePathKeepsSegments(it.displayPath);
    assert v.rawUrl == apiBase + "/raw/" + EncodePath(it.displayPath);
    assert v.rawUrl[|apiBase + "/raw/"|..] == EncodePath(it.displayPath);
  }

  // ---------------------------------------------------------------------
  // Quick teach

  /** `name || newName`: the name passed in wins unless it is empty. */
  function TeachTarget(name: Option<string>, newName: string): (t: string)
    ensures t == "" <==> !TruthyText(name) && newName == ""
    ensures TruthyText(name) ==> t == name.value
    ensures !TruthyText(name) ==> t == newName
  {
    if TruthyText(name) then name.value else newName
  }

  /** The body of `POST /api/identities/teach`. */
  datatype TeachRequest = TeachRequest(name: string, anchors: seq<string>)

  class InspectorState {
    var newName: string

    constructor ()
      ensures newName == ""
    {
      newName := "";
    }

    /** The input's `onChange`. */
    method Type(value: string)
      modifies this
      ensures newName == value
    {
      newName := value;
    }

    /** `handleQuickTeach(name)` on the previewed item. No request goes out
        when both names are empty; the item's own path is the only anchor.
        A successful request clears the input and, when the parent handed a
        refresher in, refreshes the identities; a failed one is swallowed. */
    method QuickTeach(item: Item, name: Option<string>, ok: bool, hasRefresh: bool)
      returns (request: Option<TeachRequest>, refreshed: bool)
      modifies this
      ensures TeachTarget(name, old(newName)) == "" ==> request.None? && !refreshed && newName == old(newName)
      ensures TeachTarget(name, old(newName)) != "" ==>
        request == Some(TeachRequest(TeachTarget(name, old(newName)), [item.path]))
      ensures request.Some? && ok ==> newName == "" && refreshed == hasRefresh
      ensures request.Some? && !ok ==> newName == old(newName) && !refreshed
    {
      var target := TeachTarget(name, newName);
      if target == "" {
        return None, false;
      }
      request := Some(TeachRequest(target, [item.path]));
      refreshed := false;
      if ok {
        newName := "";
        refreshed := hasRefresh;
      }
    }
  }
}
