/** The HTTP handlers of `app/routes.py` that decide something: the web
    path helper, the scan trigger, the post-processing of `/search` (the
    identity match, the tag map, the per-kind threshold and top-k filters,
    the merge, sort and truncation) and the ordering of `/weave`.

    The similarity scores and their ranking are the ML layer's: a search
    receives each kind's rows already ranked by `torch.topk` as `Hit`s. The
    database reads are inputs; `None` stands for a read or an encoder call
    that raised. */
module Routes {
  import opened Common
  import opened FileTree
  import Scanner

  const ImageTopK: nat := 500
  const AudioTopK: nat := 20
  const ResultCap: nat := 500
  const DefaultThreshold: real := 0.15

  // ---------------------------------------------------------------------
  // web_path

  /** `web_path(p)`: every back-slash becomes '/', every other character
      stays where it is. */
  function WebPath(p: string): (r: string)
    ensures '\\' !in r && |r| == |p|
    ensures forall i :: 0 <= i < |p| && p[i] != '\\' ==> r[i] == p[i]
  {
    ReplaceAbsent(p, '\\', '/');
    Replace(p, '\\', '/')
  }

  lemma WebPathIdempotent(p: string)
    ensures WebPath(WebPath(p)) == WebPath(p)
  {
    ReplaceIdentity(WebPath(p), '\\', '/');
  }

  // ---------------------------------------------------------------------
  // POST /scan

  /** A scan is queued only when the shared status is "idle"; the reply is
      "started" either way. */
  method StartScan(st: Scanner.ScanStatus) returns (queued: bool, reply: string)
    ensures queued <==> st.status == "idle"
    ensures reply == "started"
  {
    queued := st.status == "idle";
    reply := "started";
  }

  // ---------------------------------------------------------------------
  // GET /search: identity match and tag map

  /** `name.lower() in q_lower`. */
  predicate NameInQuery(name: string, q: string) {
    IsSubstring(Lower(name), Lower(q))
  }

  /** The `for ... break` over the identities in table order: the first
      identity whose lower-cased name occurs in the lower-cased query. */
  method MatchIdentity(names: seq<string>, q: string) returns (matched: Option<string>)
    ensures matched.None? <==> forall i :: 0 <= i < |names| ==> !NameInQuery(names[i], q)
    ensures matched.Some? ==>
      exists i :: 0 <= i < |names| && names[i] == matched.value && NameInQuery(names[i], q)
                  && forall j :: 0 <= j < i ==> !NameInQuery(names[j], q)
  {
    for k := 0 to |names|
      invariant forall j :: 0 <= j < k ==> !NameInQuery(names[j], q)
    {
      if NameInQuery(names[k], q) {
        return Some(names[k]);
      }
    }
    return None;
  }

  /** One row of `identity_links JOIN identities`. */
  datatype Link = Link(path: string, name: string)

  /** The names linked to `p`, in link order. */
  function LinkedNames(links: seq<Link>, p: string): seq<string>
  {
    if links == [] then []
    else LinkedNames(links[..|links| - 1], p)
         + (if links[|links| - 1].path == p then [links[|links| - 1].name] else [])
  }

  /** `tag_map.get(p, [])`. */
  function TagsFor(tagMap: map<string, seq<string>>, p: string): seq<string>
  {
    if p in tagMap then tagMap[p] else []
  }

  /** The `tag_map.setdefault(p, []).append(n)` loop: every path gets the
      names linked to it in link order, an unlinked path gets [], and only
      linked paths are keys. */
  method BuildTagMap(links: seq<Link>) returns (tagMap: map<string, seq<string>>)
    ensures forall p :: TagsFor(tagMap, p) == LinkedNames(links, p)
    ensures forall p :: p in tagMap <==> LinkedNames(links, p) != []
  {
    tagMap := map[];
    for k := 0 to |links|
      invariant forall p :: TagsFor(tagMap, p) == LinkedNames(links[..k], p)
      invariant forall p :: p in tagMap <==> LinkedNames(links[..k], p) != []
    {
      assert links[..k + 1][..k] == links[..k];
      var l := links[k];
      tagMap := tagMap[l.path := TagsFor(tagMap, l.path) + [l.name]];
    }
    assert links[..|links|] == links;
  }

  // ---------------------------------------------------------------------
  // GET /search: shaping the hits

  /** The columns of an asset row that the handlers read. */
  datatype AssetRow = AssetRow(path: string, tsReal: Option<int>, tsInferred: Option<int>)

  /** One `(score, index)` pair of `torch.topk`, with its row. */
  datatype Hit = Hit(row: AssetRow, score: real)

  datatype HitKind = ImageHit | AudioHit

  datatype SearchResult = SearchResult(
    path: string, score: real, kind: HitKind, ts: Option<int>,
    displayPath: string, thumb: Option<string>, tags: seq<string>)

  /** Python's `a or b` on two optional timestamps: `None` and 0 are falsy. */
  function OrInt(a: Option<int>, b: Option<int>): (r: Option<int>)
    ensures a.Some? && a.value != 0 ==> r == a
    ensures !(a.Some? && a.value != 0) ==> r == b
  {
    if a.Some? && a.value != 0 then a else b
  }

  /** `Path(path).relative_to(base)`; `None` is the `ValueError` raised when
      the path is not below `base`. */
  function RelativeTo(path: string, base: string): Option<string>
  {
    if path == base then Some(".")
    else if StartsWith(path, base + "/") then Some(path[|base| + 1..])
    else None
  }

  /** The `display_path` expression: relative to the DreamBox when the path
      string starts with the DreamBox path, else the bare file name, then
      `web_path`. `None` when the prefix test passes but the path is not
      below the DreamBox (a sibling such as "DreamBox-old"), where
      `relative_to` raises. */
  function DisplayPath(path: string, dreamBox: string): (r: Option<string>)
    ensures !StartsWith(path, dreamBox) ==> r == Some(WebPath(BaseName(path)))
    ensures StartsWith(path, dreamBox + "/") ==> r == Some(WebPath(path[|dreamBox| + 1..]))
    ensures r.None? <==> StartsWith(path, dreamBox) && path != dreamBox && !StartsWith(path, dreamBox + "/")
  {
    if StartsWith(path, dreamBox) then
      match RelativeTo(path, dreamBox)
      case Some(rel) => Some(WebPath(rel))
      case None => None
    else Some(WebPath(BaseName(path)))
  }

  /** The result dict the image loop appends for a kept hit whose display
      path is `d`. */
  function ImageResultOf(h: Hit, d: string, tagMap: map<string, seq<string>>): SearchResult
  {
    SearchResult(h.row.path, h.score, ImageHit, OrInt(h.row.tsReal, h.row.tsInferred),
                 d, Some("/thumbs/" + Scanner.ThumbName(h.row.path)), TagsFor(tagMap, h.row.path))
  }

  /** The result dict the audio loop appends: no thumbnail. */
  function AudioResultOf(h: Hit, d: string, tagMap: map<string, seq<string>>): SearchResult
  {
    SearchResult(h.row.path, h.score, AudioHit, OrInt(h.row.tsReal, h.row.tsInferred),
                 d, None, TagsFor(tagMap, h.row.path))
  }

  /** The hits the image loop keeps: at or above the threshold, file on disk. */
  function KeptImage(threshold: real, onDisk: string -> bool): Hit -> bool
  {
    (h: Hit) => h.score >= threshold && onDisk(h.row.path)
  }

  /** The hits the audio loop keeps: at or above the threshold. */
  function KeptAudio(threshold: real): Hit -> bool
  {
    (h: Hit) => h.score >= threshold
  }

  /** The image loop over the top-k hits: hits under the threshold and
      files gone from disk are skipped; `None` when building a result
      raises. */
  function ImageResults(hits: seq<Hit>, threshold: real, dreamBox: string,
                        onDisk: string -> bool, tagMap: map<string, seq<string>>): (r: Option<seq<SearchResult>>)
    ensures r.Some? ==> |r.value| <= |hits|
    ensures r.Some? ==> forall x :: x in r.value ==>
      && x.score >= threshold && onDisk(x.path) && x.kind == ImageHit
      && x.thumb == Some("/thumbs/" + Scanner.ThumbName(x.path))
      && x.tags == TagsFor(tagMap, x.path)
  {
    if hits == [] then Some([])
    else
      match ImageResults(hits[..|hits| - 1], threshold, dreamBox, onDisk, tagMap)
      case None => None
      case Some(rs) =>
        var h := hits[|hits| - 1];
        if h.score < threshold || !onDisk(h.row.path) then Some(rs)
        else
          match DisplayPath(h.row.path, dreamBox)
          case None => None
          case Some(d) => Some(rs + [ImageResultOf(h, d, tagMap)])
  }

  /** The audio loop: the same threshold, no existence check, no thumbnail. */
  function AudioResults(hits: seq<Hit>, threshold: real, dreamBox: string,
                        tagMap: map<string, seq<string>>): (r: Option<seq<SearchResult>>)
    ensures r.Some? ==> |r.value| <= |hits|
    ensures r.Some? ==> forall x :: x in r.value ==>
      x.score >= threshold && x.kind == AudioHit && x.thumb == None && x.tags == TagsFor(tagMap, x.path)
  {
    if hits == [] then Some([])
    else
      match AudioResults(hits[..|hits| - 1], threshold, dreamBox, tagMap)
      case None => None
      case Some(rs) =>
        var h := hits[|hits| - 1];
        if h.score < threshold then Some(rs)
        else
          match DisplayPath(h.row.path, dreamBox)
          case None => None
          case Some(d) => Some(rs + [AudioResultOf(h, d, tagMap)])
  }

  /** Every hit of `kept` has a display path. */
  predicate AllDisplayable(kept: seq<Hit>, dreamBox: string)
  {
    forall k :: 0 <= k < |kept| ==> DisplayPath(kept[k].row.path, dreamBox).Some?
  }

  function ImageBuild(tagMap: map<string, seq<string>>): (Hit, string) -> SearchResult
  {
    (h, d) => ImageResultOf(h, d, tagMap)
  }

  function AudioBuild(tagMap: map<string, seq<string>>): (Hit, string) -> SearchResult
  {
    (h, d) => AudioResultOf(h, d, tagMap)
  }

  /** `r` holds, position by position, the result `build` makes of each
      hit of `kept` with its display path. */
  predicate Corresponds(r: seq<SearchResult>, kept: seq<Hit>, build: (Hit, string) -> SearchResult, dreamBox: string)
  {
    && |r| == |kept|
    && forall k :: 0 <= k < |kept| ==>
         DisplayPath(kept[k].row.path, dreamBox).Some? && r[k] == build(kept[k], DisplayPath(kept[k].row.path, dreamBox).value)
  }

  lemma AllDisplayableSnoc(kept: seq<Hit>, h: Hit, dreamBox: string)
    ensures AllDisplayable(kept + [h], dreamBox) <==> AllDisplayable(kept, dreamBox) && DisplayPath(h.row.path, dreamBox).Some?
  {
    var ks := kept + [h];
    assert ks[|kept|] == h;
    assert forall k :: 0 <= k < |kept| ==> ks[k] == kept[k];
  }

  lemma CorrespondsSnoc(r: seq<SearchResult>, kept: seq<Hit>, build: (Hit, string) -> SearchResult,
                        dreamBox: string, h: Hit, d: string)
    requires Corresponds(r, kept, build, dreamBox) && DisplayPath(h.row.path, dreamBox) == Some(d)
    ensures Corresponds(r + [build(h, d)], kept + [h], build, dreamBox)
  {
    var rs, ks := r + [build(h, d)], kept + [h];
    assert rs[|r|] == build(h, d) && ks[|kept|] == h;
    assert forall k :: 0 <= k < |kept| ==> rs[k] == r[k] && ks[k] == kept[k];
  }

  /** The image loop fails exactly when a kept hit has no display path;
      otherwise it returns one result per kept hit, built from that hit,
      in hit order. */
  lemma {:induction false} ImageResultsExact(hits: seq<Hit>, threshold: real, dreamBox: string,
                                              onDisk: string -> bool, tagMap: map<string, seq<string>>)
    ensures var kept := Filter(hits, KeptImage(threshold, onDisk));
      var r := ImageResults(hits, threshold, dreamBox, onDisk, tagMap);
      && (r.Some? <==> AllDisplayable(kept, dreamBox))
      && (r.Some? ==> Corresponds(r.value, kept, ImageBuild(tagMap), dreamBox))
  {
    if hits != [] {
      var init, h := hits[..|hits| - 1], hits[|hits| - 1];
      ImageResultsExact(init, threshold, dreamBox, onDisk, tagMap);
      FilterLast(hits, KeptImage(threshold, onDisk));
      var keptInit := Filter(init, KeptImage(threshold, onDisk));
      var r0 := ImageResults(init, threshold, dreamBox, onDisk, tagMap);
      var r := ImageResults(hits, threshold, dreamBox, onDisk, tagMap);
      if !KeptImage(threshold, onDisk)(h) {
        assert Filter(hits, KeptImage(threshold, onDisk)) == keptInit;
        assert r == r0;
      } else {
        AllDisplayableSnoc(keptInit, h, dreamBox);
        assert Filter(hits, KeptImage(threshold, onDisk)) == keptInit + [h];
        var d := DisplayPath(h.row.path, dreamBox);
        if r0.None? || d.None? {
          assert r.None?;
        } else {
          CorrespondsSnoc(r0.value, keptInit, ImageBuild(tagMap), dreamBox, h, d.value);
          assert r == Some(r0.value + [ImageBuild(tagMap)(h, d.value)]);
        }
      }
    }
  }

  /** The audio loop fails exactly when a kept hit has no display path;
      otherwise it returns one result per hit at or above the threshold,
      built from that hit, in hit order. */
  lemma {:induction false} AudioResultsExact(hits: seq<Hit>, threshold: real, dreamBox: string,
                                              tagMap: map<string, seq<string>>)
    ensures var kept := Filter(hits, KeptAudio(threshold));
      var r := AudioResults(hits, threshold, dreamBox, tagMap);
      && (r.Some? <==> AllDisplayable(kept, dreamBox))
      && (r.Some? ==> Corresponds(r.value, kept, AudioBuild(tagMap), dreamBox))
  {
    if hits != [] {
      var init, h := hits[..|hits| - 1], hits[|hits| - 1];
      AudioResultsExact(init, threshold, dreamBox, tagMap);
      FilterLast(hits, KeptAudio(threshold));
      var keptInit := Filter(init, KeptAudio(threshold));
      var r0 := AudioResults(init, threshold, dreamBox, tagMap);
      var r := AudioResults(hits, threshold, dreamBox, tagMap);
      if !KeptAudio(threshold)(h) {
        assert Filter(hits, KeptAudio(threshold)) == keptInit;
        assert r == r0;
      } else {
        AllDisplayableSnoc(keptInit, h, dreamBox);
        assert Filter(hits, KeptAudio(threshold)) == keptInit + [h];
        var d := DisplayPath(h.row.path, dreamBox);
        if r0.None? || d.None? {
          assert r.None?;
        } else {
          CorrespondsSnoc(r0.value, keptInit, AudioBuild(tagMap), dreamBox, h, d.value);
          assert r == Some(r0.value + [AudioBuild(tagMap)(h, d.value)]);
        }
      }
    }
  }

  function NegScore(x: SearchResult): real
  {
    -x.score
  }

  /** `results.sort(key=score, reverse=True)` then `results[:500]`. */
  function Rank(results: seq<SearchResult>): seq<SearchResult>
  {
    Take(SortBy(results, NegScore), ResultCap)
  }

  /** The ranked list holds the first min(n, 500) of the merged list's n
      results by non-increasing score: it is a sub-multiset of the merged
      list (all of it when nothing is cut), and every result left out
      scores no higher than the last one kept. */
  /** Scores never increase along `r`. */
  predicate ScoreSorted(r: seq<SearchResult>)
  {
    forall i, j :: 0 <= i < j < |r| ==> r[i].score >= r[j].score
  }

  lemma RankShape(results: seq<SearchResult>)
    ensures |Rank(results)| == Min(|results|, ResultCap)
    ensures ScoreSorted(Rank(results))
    ensures multiset(Rank(results)) <= multiset(results)
    ensures |results| <= ResultCap ==> multiset(Rank(results)) == multiset(results)
    ensures forall x :: x in results && x !in Rank(results) ==>
      |Rank(results)| == ResultCap && x.score <= Rank(results)[ResultCap - 1].score
  {
    var sorted := SortBy(results, NegScore);
    var r := Rank(results);
    forall i, j | 0 <= i < j < |r| ensures r[i].score >= r[j].score {
      assert r[i] == sorted[i] && r[j] == sorted[j];
      assert NegScore(sorted[i]) <= NegScore(sorted[j]);
    }
    assert r == sorted[..|r|];
    MultisetPrefix(sorted, |r|);
    forall x | x in results && x !in r
      ensures |r| == ResultCap && x.score <= r[ResultCap - 1].score
    {
      assert x in multiset(sorted);
      OutsidePrefixBelow(sorted, NegScore, |r|, x);
    }
  }

  /** Results with equal scores keep the image-then-audio merge order: for
      every sort key `k` (a negated score), the kept results with that key
      are the first ones with it in the merged list, and all of them when
      nothing is cut. */
  lemma RankStable(results: seq<SearchResult>, k: real)
    ensures IsPrefix(WithKey(Rank(results), NegScore, k), WithKey(results, NegScore, k))
    ensures |results| <= ResultCap ==> WithKey(Rank(results), NegScore, k) == WithKey(results, NegScore, k)
  {
    SortTakeStableAt(results, NegScore, ResultCap, k, Rank(results));
  }

  /** Everything a search reads before shaping results: identity names, tag
      links, and each kind's rows ranked by the encoder. */
  datatype SearchData = SearchData(identities: seq<string>, links: seq<Link>,
                                   rankedImages: seq<Hit>, rankedAudio: seq<Hit>)

  /** The result of `/search` for a non-empty query. */
  function SearchSpec(d: SearchData, threshold: real, dreamBox: string, onDisk: string -> bool,
                      tagMap: map<string, seq<string>>): seq<SearchResult>
  {
    match ImageResults(Take(d.rankedImages, ImageTopK), threshold, dreamBox, onDisk, tagMap)
    case None => []
    case Some(imgs) =>
      match AudioResults(Take(d.rankedAudio, AudioTopK), threshold, dreamBox, tagMap)
      case None => []
      case Some(auds) => Rank(imgs + auds)
  }

  /** `x` is in the ranked list `r`, or `r` was cut at 500 and `x` scores
      no higher than the last result kept. */
  predicate ListedOrCut(r: seq<SearchResult>, x: SearchResult)
  {
    x in r || (|r| == ResultCap && x.score <= r[ResultCap - 1].score)
  }

  /** The image hits a search keeps: of the top 500, those at or above the
      threshold whose file is on disk. */
  function KeptImages(d: SearchData, threshold: real, onDisk: string -> bool): seq<Hit>
  {
    Filter(Take(d.rankedImages, ImageTopK), KeptImage(threshold, onDisk))
  }

  /** The audio hits a search keeps: of the top 20, those at or above the
      threshold. */
  function KeptAudios(d: SearchData, threshold: real): seq<Hit>
  {
    Filter(Take(d.rankedAudio, AudioTopK), KeptAudio(threshold))
  }

  /** Every search result clears the threshold and every image in it is
      on disk; the list is sorted by non-increasing score and holds at most
      500 entries. Conversely, when every kept hit has a display path, the
      result of every kept image and audio hit is in the answer unless the
      answer was cut at 500 above it; when one has none, the answer is
      empty. */
  lemma SearchSpecShape(d: SearchData, threshold: real, dreamBox: string, onDisk: string -> bool,
                        tagMap: map<string, seq<string>>)
    ensures var r := SearchSpec(d, threshold, dreamBox, onDisk, tagMap);
      && |r| <= ResultCap
      && ScoreSorted(r)
      && (forall x :: x in r ==> x.score >= threshold)
      && (forall x :: x in r && x.kind == ImageHit ==> onDisk(x.path))
    ensures var r := SearchSpec(d, threshold, dreamBox, onDisk, tagMap);
      var ki, ka := KeptImages(d, threshold, onDisk), KeptAudios(d, threshold);
      && (!(AllDisplayable(ki, dreamBox) && AllDisplayable(ka, dreamBox)) ==> r == [])
      && (AllDisplayable(ki, dreamBox) && AllDisplayable(ka, dreamBox) ==>
            && (forall k :: 0 <= k < |ki| ==>
                  ListedOrCut(r, ImageBuild(tagMap)(ki[k], DisplayPath(ki[k].row.path, dreamBox).value)))
            && (forall k :: 0 <= k < |ka| ==>
                  ListedOrCut(r, AudioBuild(tagMap)(ka[k], DisplayPath(ka[k].row.path, dreamBox).value))))
  {
    SearchSpecSound(d, threshold, dreamBox, onDisk, tagMap);
    SearchSpecComplete(d, threshold, dreamBox, onDisk, tagMap);
  }

  lemma SearchSpecSound(d: SearchData, threshold: real, dreamBox: string, onDisk: string -> bool,
                        tagMap: map<string, seq<string>>)
    ensures var r := SearchSpec(d, threshold, dreamBox, onDisk, tagMap);
      && |r| <= ResultCap
      && ScoreSorted(r)
      && (forall x :: x in r ==> x.score >= threshold)
      && (forall x :: x in r && x.kind == ImageHit ==> onDisk(x.path))
  {
    var imgsO := ImageResults(Take(d.rankedImages, ImageTopK), threshold, dreamBox, onDisk, tagMap);
    var audsO := AudioResults(Take(d.rankedAudio, AudioTopK), threshold, dreamBox, tagMap);
    if imgsO.Some? && audsO.Some? {
      var all := imgsO.value + audsO.value;
      var r := Rank(all);
      assert SearchSpec(d, threshold, dreamBox, onDisk, tagMap) == r;
      assert |r| <= ResultCap && ScoreSorted(r) by {
        RankShape(all);
      }
      assert forall x :: x in r ==> x in all by {
        RankShape(all);
        forall x | x in r ensures x in all {
          assert x in multiset(r);
        }
      }
    } else {
      assert SearchSpec(d, threshold, dreamBox, onDisk, tagMap) == [];
    }
  }

  lemma SearchSpecComplete(d: SearchData, threshold: real, dreamBox: string, onDisk: string -> bool,
                           tagMap: map<string, seq<string>>)
    ensures var r := SearchSpec(d, threshold, dreamBox, onDisk, tagMap);
      var ki, ka := KeptImages(d, threshold, onDisk), KeptAudios(d, threshold);
      && (!(AllDisplayable(ki, dreamBox) && AllDisplayable(ka, dreamBox)) ==> r == [])
      && (AllDisplayable(ki, dreamBox) && AllDisplayable(ka, dreamBox) ==>
            && (forall k :: 0 <= k < |ki| ==>
                  ListedOrCut(r, ImageBuild(tagMap)(ki[k], DisplayPath(ki[k].row.path, dreamBox).value)))
            && (forall k :: 0 <= k < |ka| ==>
                  ListedOrCut(r, AudioBuild(tagMap)(ka[k], DisplayPath(ka[k].row.path, dreamBox).value))))
  {
    var ki, ka := KeptImages(d, threshold, onDisk), KeptAudios(d, threshold);
    var imgsO := ImageResults(Take(d.rankedImages, ImageTopK), threshold, dreamBox, onDisk, tagMap);
    var audsO := AudioResults(Take(d.rankedAudio, AudioTopK), threshold, dreamBox, tagMap);
    ImageResultsExact(Take(d.rankedImages, ImageTopK), threshold, dreamBox, onDisk, tagMap);
    AudioResultsExact(Take(d.rankedAudio, AudioTopK), threshold, dreamBox, tagMap);
    if imgsO.Some? && audsO.Some? {
      assert SearchSpec(d, threshold, dreamBox, onDisk, tagMap) == Rank(imgsO.value + audsO.value);
      RankedComplete(imgsO.value, audsO.value, ki, ka, ImageBuild(tagMap), AudioBuild(tagMap), dreamBox);
    } else {
      assert SearchSpec(d, threshold, dreamBox, onDisk, tagMap) == [];
    }
  }

  /** Ranking the merged image and audio results keeps the result of every
      kept hit, unless the list was cut at 500 above it. */
  lemma RankedComplete(imgs: seq<SearchResult>, auds: seq<SearchResult>, ki: seq<Hit>, ka: seq<Hit>,
                       ib: (Hit, string) -> SearchResult, ab: (Hit, string) -> SearchResult, dreamBox: string)
    requires Corresponds(imgs, ki, ib, dreamBox) && Corresponds(auds, ka, ab, dreamBox)
    ensures forall k :: 0 <= k < |ki| ==>
      DisplayPath(ki[k].row.path, dreamBox).Some? && ListedOrCut(Rank(imgs + auds), ib(ki[k], DisplayPath(ki[k].row.path, dreamBox).value))
    ensures forall k :: 0 <= k < |ka| ==>
      DisplayPath(ka[k].row.path, dreamBox).Some? && ListedOrCut(Rank(imgs + auds), ab(ka[k], DisplayPath(ka[k].row.path, dreamBox).value))
  {
    var all := imgs + auds;
    var r := Rank(all);
    assert forall x :: x in all ==> ListedOrCut(r, x) by {
      RankShape(all);
    }
    KeptListed(r, imgs, ki, ib, dreamBox, all);
    KeptListed(r, auds, ka, ab, dreamBox, all);
  }

  /** The results of the kept hits, all in the merged list, are each listed
      or cut. */
  lemma KeptListed(r: seq<SearchResult>, rs: seq<SearchResult>, kept: seq<Hit>,
                   build: (Hit, string) -> SearchResult, dreamBox: string, all: seq<SearchResult>)
    requires Corresponds(rs, kept, build, dreamBox)
    requires forall x :: x in rs ==> x in all
    requires forall x :: x in all ==> ListedOrCut(r, x)
    ensures forall k :: 0 <= k < |kept| ==>
      DisplayPath(kept[k].row.path, dreamBox).Some? && ListedOrCut(r, build(kept[k], DisplayPath(kept[k].row.path, dreamBox).value))
  {
    forall k | 0 <= k < |kept|
      ensures DisplayPath(kept[k].row.path, dreamBox).Some? && ListedOrCut(r, build(kept[k], DisplayPath(kept[k].row.path, dreamBox).value))
    {
      assert rs[k] in rs;
    }
  }

  predicate IsImageResult(x: SearchResult) {
    x.kind == ImageHit
  }

  predicate IsAudioResult(x: SearchResult) {
    x.kind == AudioHit
  }

  /** Ranking keeps no more elements of any one sort than the merged list
      had. */
  lemma RankFilterBound(results: seq<SearchResult>, p: SearchResult -> bool)
    ensures |Filter(Rank(results), p)| <= |Filter(results, p)|
  {
    var sorted := SortBy(results, NegScore);
    var r := Rank(results);
    assert sorted == r + sorted[|r|..];
    FilterConcat(r, sorted[|r|..], p);
    FilterPermutation(sorted, results, p);
  }

  /** At most 500 images and 20 audio items reach a search's results. */
  lemma SearchSpecKindCaps(d: SearchData, threshold: real, dreamBox: string, onDisk: string -> bool,
                           tagMap: map<string, seq<string>>)
    ensures var r := SearchSpec(d, threshold, dreamBox, onDisk, tagMap);
      |Filter(r, IsImageResult)| <= ImageTopK && |Filter(r, IsAudioResult)| <= AudioTopK
  {
    var imgsO := ImageResults(Take(d.rankedImages, ImageTopK), threshold, dreamBox, onDisk, tagMap);
    var audsO := AudioResults(Take(d.rankedAudio, AudioTopK), threshold, dreamBox, tagMap);
    if imgsO.Some? && audsO.Some? {
      var imgs, auds := imgsO.value, audsO.value;
      var all := imgs + auds;
      FilterConcat(imgs, auds, IsImageResult);
      FilterConcat(imgs, auds, IsAudioResult);
      FilterNone(auds, IsImageResult);
      FilterNone(imgs, IsAudioResult);
      RankFilterBound(all, IsImageResult);
      RankFilterBound(all, IsAudioResult);
    }
  }

  /** The image loop of `/search`; `None` when it raises. */
  method CollectImages(hits: seq<Hit>, threshold: real, dreamBox: string,
                       onDisk: string -> bool, tagMap: map<string, seq<string>>)
    returns (imgs: Option<seq<SearchResult>>)
    ensures imgs == ImageResults(hits, threshold, dreamBox, onDisk, tagMap)
  {
    var acc: seq<SearchResult> := [];
    for k := 0 to |hits|
      invariant ImageResults(hits[..k], threshold, dreamBox, onDisk, tagMap) == Some(acc)
    {
      assert hits[..k + 1][..k] == hits[..k];
      var h := hits[k];
      if h.score < threshold {
        continue;
      }
      if !onDisk(h.row.path) {
        continue;
      }
      var display := DisplayPath(h.row.path, dreamBox);
      if display.None? {
        ImageResultsNoneSticky(hits, k + 1, threshold, dreamBox, onDisk, tagMap);
        return None;
      }
      acc := acc + [SearchResult(h.row.path, h.score, ImageHit, OrInt(h.row.tsReal, h.row.tsInferred),
                                 display.value, Some("/thumbs/" + Scanner.ThumbName(h.row.path)),
                                 TagsFor(tagMap, h.row.path))];
    }
    assert hits[..|hits|] == hits;
    return Some(acc);
  }

  /** The audio loop of `/search`; `None` when it raises. */
  method CollectAudio(hits: seq<Hit>, threshold: real, dreamBox: string, tagMap: map<string, seq<string>>)
    returns (auds: Option<seq<SearchResult>>)
    ensures auds == AudioResults(hits, threshold, dreamBox, tagMap)
  {
    var acc: seq<SearchResult> := [];
    for k := 0 to |hits|
      invariant AudioResults(hits[..k], threshold, dreamBox, tagMap) == Some(acc)
    {
      assert hits[..k + 1][..k] == hits[..k];
      var h := hits[k];
      if h.score < threshold {
        continue;
      }
      var display := DisplayPath(h.row.path, dreamBox);
      if display.None? {
        AudioResultsNoneSticky(hits, k + 1, threshold, dreamBox, tagMap);
        return None;
      }
      acc := acc + [SearchResult(h.row.path, h.score, AudioHit, OrInt(h.row.tsReal, h.row.tsInferred),
                                 display.value, None, TagsFor(tagMap, h.row.path))];
    }
    assert hits[..|hits|] == hits;
    return Some(acc);
  }

  /** GET /search. `data` is `None` when a database read or the encoder
      raised; `threshold` defaults to 0.15 in the route signature. */
  method Search(q: string, threshold: real, dreamBox: string, data: Option<SearchData>, onDisk: string -> bool)
    returns (results: seq<SearchResult>, matched: Option<string>)
    ensures q == "" || data.None? ==> results == []
    ensures q != "" && data.Some? ==>
      exists tagMap: map<string, seq<string>> ::
        && (forall p :: TagsFor(tagMap, p) == LinkedNames(data.value.links, p))
        && results == SearchSpec(data.value, threshold, dreamBox, onDisk, tagMap)
  {
    if q == "" || data.None? {
      return [], None;
    }
    var d := data.value;
    matched := MatchIdentity(d.identities, q);
    var tagMap := BuildTagMap(d.links);
    var imgs := CollectImages(Take(d.rankedImages, ImageTopK), threshold, dreamBox, onDisk, tagMap);
    var auds := CollectAudio(Take(d.rankedAudio, AudioTopK), threshold, dreamBox, tagMap);
    if imgs.None? || auds.None? {
      results := [];
    } else {
      results := Rank(imgs.value + auds.value);
    }
    assert results == SearchSpec(d, threshold, dreamBox, onDisk, tagMap);
  }

  lemma {:induction false} ImageResultsNoneSticky(hits: seq<Hit>, n: nat, threshold: real, dreamBox: string,
                                                  onDisk: string -> bool, tagMap: map<string, seq<string>>)
    requires n <= |hits| && ImageResults(hits[..n], threshold, dreamBox, onDisk, tagMap).None?
    ensures ImageResults(hits, threshold, dreamBox, onDisk, tagMap).None?
    decreases |hits| - n
  {
    if n < |hits| {
      assert hits[..n + 1][..n] == hits[..n];
      ImageResultsNoneSticky(hits, n + 1, threshold, dreamBox, onDisk, tagMap);
    } else {
      assert hits[..n] == hits;
    }
  }

  lemma {:induction false} AudioResultsNoneSticky(hits: seq<Hit>, n: nat, threshold: real, dreamBox: string,
                                                  tagMap: map<string, seq<string>>)
    requires n <= |hits| && AudioResults(hits[..n], threshold, dreamBox, tagMap).None?
    ensures AudioResults(hits, threshold, dreamBox, tagMap).None?
    decreases |hits| - n
  {
    if n < |hits| {
      assert hits[..n + 1][..n] == hits[..n];
      AudioResultsNoneSticky(hits, n + 1, threshold, dreamBox, tagMap);
    } else {
      assert hits[..n] == hits;
    }
  }

  // ---------------------------------------------------------------------
  // POST /weave

  datatype Woven = Woven(path: string, score: real, ts: Option<int>, displayPath: string, thumb: string)

  /** `x[2] or x[3] or 0`. */
  function WeaveKey(r: AssetRow): real
  {
    match OrInt(r.tsReal, r.tsInferred)
    case Some(t) => t as real
    case None => 0.0
  }

  function WovenAll(pool: seq<AssetRow>, dreamBox: string): (r: Option<seq<Woven>>)
    ensures r.Some? ==> |r.value| == |pool|
    ensures r.Some? ==> forall i :: 0 <= i < |pool| ==>
      r.value[i].path == pool[i].path && r.value[i].score == 1.0
      && r.value[i].thumb == "/thumbs/" + Scanner.ThumbName(pool[i].path)
  {
    if pool == [] then Some([])
    else
      var row := pool[0];
      match DisplayPath(row.path, dreamBox)
      case None => None
      case Some(d) =>
        match WovenAll(pool[1..], dreamBox)
        case None => None
        case Some(rest) =>
          Some([Woven(row.path, 1.0, OrInt(row.tsReal, row.tsInferred), d, "/thumbs/" + Scanner.ThumbName(row.path))] + rest)
  }

  /** `r[0] in anchors`. */
  function Anchored(anchors: seq<string>): AssetRow -> bool
  {
    (r: AssetRow) => r.path in anchors
  }

  /** POST /weave over the image rows in table order. `None` is the
      unhandled `ValueError` of `relative_to`. */
  function Weave(rows: seq<AssetRow>, anchors: seq<string>, dreamBox: string): (r: Option<seq<Woven>>)
    ensures var sorted := SortBy(Filter(rows, Anchored(anchors)), WeaveKey);
      r.Some? ==> (|r.value| == |sorted|
        && forall i :: 0 <= i < |sorted| ==> r.value[i].path == sorted[i].path && r.value[i].score == 1.0)
  {
    var pool := Filter(rows, Anchored(anchors));
    WovenAll(SortBy(pool, WeaveKey), dreamBox)
  }

  /** The story's order: the anchored image rows, each kept as often as it
      occurs, by time (real, else inferred, else 0) with ties in table
      order. */
  lemma WeavePoolOrder(rows: seq<AssetRow>, anchors: seq<string>, k: real)
    ensures var pool := Filter(rows, Anchored(anchors));
      var sorted := SortBy(pool, WeaveKey);
      && (forall i, j :: 0 <= i < j < |sorted| ==> WeaveKey(sorted[i]) <= WeaveKey(sorted[j]))
      && multiset(sorted) == multiset(pool)
      && (forall i :: 0 <= i < |sorted| ==> sorted[i].path in anchors && sorted[i] in rows)
      && WithKey(sorted, WeaveKey, k) == WithKey(pool, WeaveKey, k)
  {
    var pool := Filter(rows, Anchored(anchors));
    var sorted := SortBy(pool, WeaveKey);
    SortByStable(pool, WeaveKey, k);
    forall i | 0 <= i < |sorted| ensures sorted[i].path in anchors && sorted[i] in rows {
      assert sorted[i] in multiset(pool);
      assert Anchored(anchors)(sorted[i]);
    }
  }

  /** When no row's path merely shares the DreamBox's prefix without lying
      below it, building the story cannot fail. */
  lemma {:induction false} WovenAllDefined(pool: seq<AssetRow>, dreamBox: string)
    requires forall i :: 0 <= i < |pool| ==> DisplayPath(pool[i].path, dreamBox).Some?
    ensures WovenAll(pool, dreamBox).Some?
  {
    if pool != [] {
      WovenAllDefined(pool[1..], dreamBox);
    }
  }
}
