/** The side panel of `RightPanel.jsx`: which pane it shows, the colour
    swatches the inspector extracts from the previewed image (a histogram
    of sampled pixels and its five most frequent colours), and the play
    state of the mini player.

    The canvas read-back is an input: `data` is the RGBA byte array that
    `getImageData` returns for the 50 x 50 thumbnail. */
module RightPanel {
  import opened Common
  import opened Media

  /** A byte of the pixel array, or `undefined` when read past its end. */
  function ByteAt(data: seq<nat>, i: nat): Option<nat>
  {
    if i < |data| then Some(data[i]) else None
  }

  /** The histogram key `rgb(${r},${g},${b})`, kept as its three
      components (the template string is one-to-one in them). */
  datatype Rgb = Rgb(r: Option<nat>, g: Option<nat>, b: Option<nat>)

  function KeyAt(data: seq<nat>, i: nat): Rgb
    requires i < |data|
  {
    Rgb(Some(data[i]), ByteAt(data, i + 1), ByteAt(data, i + 2))
  }

  /** The keys of the samples at offsets i, i + 20, i + 40, ... below the
      length of the array. */
  function SamplesFrom(data: seq<nat>, i: nat): seq<Rgb>
    decreases |data| - i
  {
    if i >= |data| then [] else [KeyAt(data, i)] + SamplesFrom(data, i + 20)
  }

  /** Sample k is the key at offset i + 20k, and the samples run up to the
      end of the array. */
  lemma {:induction false} SamplesOffsets(data: seq<nat>, i: nat)
    ensures var r := SamplesFrom(data, i);
      && (forall k :: 0 <= k < |r| ==> i + 20 * k < |data| && r[k] == KeyAt(data, i + 20 * k))
      && i + 20 * |r| >= |data|
      && (i < |data| ==> i + 20 * (|r| - 1) < |data|)
    decreases |data| - i
  {
    if i < |data| {
      SamplesOffsets(data, i + 20);
      var r := SamplesFrom(data, i);
      forall k | 0 <= k < |r| ensures i + 20 * k < |data| && r[k] == KeyAt(data, i + 20 * k) {
        if k > 0 {
          assert r[k] == SamplesFrom(data, i + 20)[k - 1];
        }
      }
    }
  }

  /** One entry of the `counts` object. */
  datatype Bin = Bin(colour: Rgb, count: nat)

  /** `counts[rgb] = (counts[rgb] || 0) + 1`: an existing key keeps its
      place and gains one; a new key is added at the end with 1. */
  function Bump(h: seq<Bin>, c: Rgb): (r: seq<Bin>)
    ensures |r| == |h| || |r| == |h| + 1
  {
    if h == [] then [Bin(c, 1)]
    else if h[0].colour == c then [Bin(c, h[0].count + 1)] + h[1..]
    else [h[0]] + Bump(h[1..], c)
  }

  /** The `counts` object after the sampling loop, in insertion order. */
  function Histogram(samples: seq<Rgb>): seq<Bin>
  {
    if samples == [] then [] else Bump(Histogram(samples[..|samples| - 1]), samples[|samples| - 1])
  }

  /** The count stored for `c` (0 when absent). */
  function CountOf(h: seq<Bin>, c: Rgb): nat
  {
    if h == [] then 0 else (if h[0].colour == c then h[0].count else 0) + CountOf(h[1..], c)
  }

  function Total(h: seq<Bin>): nat
  {
    if h == [] then 0 else h[0].count + Total(h[1..])
  }

  /** The keys of the `counts` object. */
  function Colours(h: seq<Bin>): set<Rgb>
  {
    if h == [] then {} else {h[0].colour} + Colours(h[1..])
  }

  /** No key occurs twice. */
  predicate DistinctColours(h: seq<Bin>) {
    h != [] ==> h[0].colour !in Colours(h[1..]) && DistinctColours(h[1..])
  }

  lemma {:induction false} ColoursIndex(h: seq<Bin>, c: Rgb)
    ensures c in Colours(h) <==> exists k :: 0 <= k < |h| && h[k].colour == c
  {
    if h != [] {
      ColoursIndex(h[1..], c);
      if exists k :: 0 <= k < |h| && h[k].colour == c {
        var k :| 0 <= k < |h| && h[k].colour == c;
        if k > 0 {
          assert h[1..][k - 1].colour == c;
        }
      }
      if exists k :: 0 <= k < |h[1..]| && h[1..][k].colour == c {
        var k :| 0 <= k < |h[1..]| && h[1..][k].colour == c;
        assert h[k + 1].colour == c;
      }
    }
  }

  lemma {:induction false} DistinctIndex(h: seq<Bin>, i: nat, j: nat)
    requires DistinctColours(h) && i < j < |h|
    ensures h[i].colour != h[j].colour
  {
    if i == 0 {
      ColoursIndex(h[1..], h[j].colour);
      assert h[1..][j - 1] == h[j];
    } else {
      DistinctIndex(h[1..], i - 1, j - 1);
    }
  }

  lemma {:induction false} BumpCount(h: seq<Bin>, c: Rgb, d: Rgb)
    ensures CountOf(Bump(h, c), d) == CountOf(h, d) + (if d == c then 1 else 0)
  {
    if h != [] && h[0].colour != c {
      BumpCount(h[1..], c, d);
      assert Bump(h, c)[1..] == Bump(h[1..], c);
    } else if h != [] {
      assert Bump(h, c)[1..] == h[1..];
    }
  }

  lemma {:induction false} BumpTotal(h: seq<Bin>, c: Rgb)
    ensures Total(Bump(h, c)) == Total(h) + 1
  {
    if h != [] && h[0].colour != c {
      BumpTotal(h[1..], c);
      assert Bump(h, c)[1..] == Bump(h[1..], c);
    } else if h != [] {
      assert Bump(h, c)[1..] == h[1..];
    }
  }

  lemma {:induction false} BumpColours(h: seq<Bin>, c: Rgb)
    ensures Colours(Bump(h, c)) == Colours(h) + {c}
  {
    if h != [] && h[0].colour != c {
      BumpColours(h[1..], c);
      assert Bump(h, c)[1..] == Bump(h[1..], c);
    } else if h != [] {
      assert Bump(h, c)[1..] == h[1..];
    }
  }

  lemma {:induction false} BumpDistinct(h: seq<Bin>, c: Rgb)
    requires DistinctColours(h)
    ensures DistinctColours(Bump(h, c))
  {
    if h != [] && h[0].colour != c {
      BumpDistinct(h[1..], c);
      BumpColours(h[1..], c);
      assert Bump(h, c)[1..] == Bump(h[1..], c);
    } else if h != [] {
      assert Bump(h, c)[1..] == h[1..];
    }
  }

  lemma {:induction false} BumpPositive(h: seq<Bin>, c: Rgb)
    requires forall k :: 0 <= k < |h| ==> h[k].count > 0
    ensures forall k :: 0 <= k < |Bump(h, c)| ==> Bump(h, c)[k].count > 0
  {
    if h != [] && h[0].colour != c {
      BumpPositive(h[1..], c);
      assert Bump(h, c)[1..] == Bump(h[1..], c);
    }
  }

  /** The histogram holds each sampled colour once, with the number of
      samples of that colour; its counts add up to the number of samples. */
  lemma {:induction false} HistogramSpec(samples: seq<Rgb>)
    ensures DistinctColours(Histogram(samples))
    ensures forall c :: CountOf(Histogram(samples), c) == multiset(samples)[c]
    ensures Total(Histogram(samples)) == |samples|
    ensures forall c :: c in Colours(Histogram(samples)) <==> c in samples
    ensures forall k :: 0 <= k < |Histogram(samples)| ==> Histogram(samples)[k].count > 0
  {
    if samples != [] {
      var init, last := samples[..|samples| - 1], samples[|samples| - 1];
      var h := Histogram(init);
      HistogramSpec(init);
      assert samples == init + [last];
      assert multiset(samples) == multiset(init) + multiset{last};
      assert Histogram(samples) == Bump(h, last);
      forall c ensures CountOf(Bump(h, last), c) == multiset(samples)[c] {
        BumpCount(h, last, c);
      }
      BumpTotal(h, last);
      BumpColours(h, last);
      BumpDistinct(h, last);
      BumpPositive(h, last);
    }
  }

  function NegCount(b: Bin): real
  {
    -(b.count as real)
  }

  /** `Object.entries(counts).sort((a, b) => b[1] - a[1]).slice(0, 5)`. */
  function TopBins(h: seq<Bin>): seq<Bin>
  {
    Take(SortBy(h, NegCount), 5)
  }

  function ColoursOf(bins: seq<Bin>): (r: seq<Rgb>)
    ensures |r| == |bins| && forall k :: 0 <= k < |bins| ==> r[k] == bins[k].colour
  {
    seq(|bins|, k requires 0 <= k < |bins| => bins[k].colour)
  }

  /** The swatches of an image: the five most frequent sampled colours. */
  function Swatches(data: seq<nat>): seq<Rgb>
  {
    ColoursOf(TopBins(Histogram(SamplesFrom(data, 0))))
  }

  /** At most five swatches, listed by non-increasing frequency. */
  lemma SwatchesOrdered(data: seq<nat>)
    ensures var top := TopBins(Histogram(SamplesFrom(data, 0)));
      && |Swatches(data)| == |top| <= 5
      && forall i, j :: 0 <= i < j < |top| ==> top[i].count >= top[j].count
  {
    var h := Histogram(SamplesFrom(data, 0));
    var sorted := SortBy(h, NegCount);
    var top := TopBins(h);
    forall i, j | 0 <= i < j < |top| ensures top[i].count >= top[j].count {
      assert NegCount(sorted[i]) <= NegCount(sorted[j]);
    }
  }

  /** Every swatch is a sampled colour, shown with its number of samples,
      and no colour is listed twice. */
  lemma SwatchesSampled(data: seq<nat>)
    ensures var samples := SamplesFrom(data, 0);
      var top := TopBins(Histogram(samples));
      && (forall k :: 0 <= k < |top| ==> top[k].colour in samples && top[k].count == multiset(samples)[top[k].colour])
      && (forall i, j :: 0 <= i < j < |top| ==> top[i].colour != top[j].colour)
  {
    var samples := SamplesFrom(data, 0);
    var h := Histogram(samples);
    HistogramSpec(samples);
    var sorted := SortBy(h, NegCount);
    var top := TopBins(h);
    forall k | 0 <= k < |top| ensures top[k].colour in samples && top[k].count == multiset(samples)[top[k].colour] {
      assert top[k] == sorted[k];
      assert sorted[k] in multiset(h);
      CountOfDistinct(h, sorted[k]);
      ColoursIndex(h, sorted[k].colour);
    }
    forall i, j | 0 <= i < j < |top| ensures top[i].colour != top[j].colour {
      DistinctPermutation(h, sorted, i, j);
    }
  }

  /** No colour left out is sampled more often than the last swatch. */
  lemma SwatchesAreTop(data: seq<nat>, c: Rgb)
    requires c in SamplesFrom(data, 0) && c !in Swatches(data)
    ensures var top := TopBins(Histogram(SamplesFrom(data, 0)));
      |top| > 0 && multiset(SamplesFrom(data, 0))[c] <= top[|top| - 1].count
  {
    var samples := SamplesFrom(data, 0);
    var h := Histogram(samples);
    var bin := SampledBin(samples, c);
    var sorted := SortBy(h, NegCount);
    var top := TopBins(h);
    assert bin in multiset(h);
    assert bin in sorted by {
      assert bin in multiset(sorted);
    }
    assert top == sorted[..|top|] && |top| == Min(|sorted|, 5);
    forall m | 0 <= m < |top| ensures top[m] != bin {
      assert Swatches(data)[m] == top[m].colour;
    }
    OutsidePrefixBelow(sorted, NegCount, |top|, bin);
  }

  /** The histogram bin of a sampled colour. */
  lemma SampledBin(samples: seq<Rgb>, c: Rgb) returns (bin: Bin)
    requires c in samples
    ensures bin in Histogram(samples) && bin.colour == c && bin.count == multiset(samples)[c]
  {
    var h := Histogram(samples);
    HistogramSpec(samples);
    ColoursIndex(h, c);
    var b :| 0 <= b < |h| && h[b].colour == c;
    bin := h[b];
    CountOfDistinct(h, bin);
  }

  /** In a histogram with distinct colours the count of a bin's colour is
      the bin's count. */
  lemma {:induction false} CountOfDistinct(h: seq<Bin>, b: Bin)
    requires DistinctColours(h) && b in h
    ensures CountOf(h, b.colour) == b.count
  {
    var k :| 0 <= k < |h| && h[k] == b;
    if k == 0 {
      CountOfAbsent(h[1..], b.colour);
    } else {
      assert h[1..][k - 1] == b;
      CountOfDistinct(h[1..], b);
      DistinctIndex(h, 0, k);
    }
  }

  lemma {:induction false} CountOfAbsent(h: seq<Bin>, c: Rgb)
    requires c !in Colours(h)
    ensures CountOf(h, c) == 0
  {
    if h != [] {
      CountOfAbsent(h[1..], c);
    }
  }

  lemma DistinctPermutation(h: seq<Bin>, sorted: seq<Bin>, i: nat, j: nat)
    requires DistinctColours(h) && multiset(sorted) == multiset(h) && i < j < |sorted|
    ensures sorted[i].colour != sorted[j].colour
  {
    var x, y := sorted[i], sorted[j];
    assert x in multiset(h) && y in multiset(h);
    var a :| 0 <= a < |h| && h[a] == x;
    var b :| 0 <= b < |h| && h[b] == y;
    if a < b {
      DistinctIndex(h, a, b);
    } else if b < a {
      DistinctIndex(h, b, a);
    } else {
      assert multiset(sorted)[x] >= 2 by {
        assert sorted == sorted[..i] + [x] + sorted[i + 1..];
        assert y in sorted[i + 1..];
      }
      MultisetAtMostOnce(h, a);
    }
  }

  /** In a histogram with distinct colours every bin occurs once. */
  lemma {:induction false} MultisetAtMostOnce(h: seq<Bin>, a: nat)
    requires DistinctColours(h) && a < |h|
    ensures multiset(h)[h[a]] == 1
  {
    assert h == [h[0]] + h[1..];
    if a == 0 {
      ColoursIndex(h[1..], h[0].colour);
      assert h[0] !in h[1..];
    } else {
      MultisetAtMostOnce(h[1..], a - 1);
      assert h[1..][a - 1] == h[a];
      DistinctIndex(h, 0, a);
    }
  }

  lemma SamplesStep(data: seq<nat>, i: nat)
    requires i < |data|
    ensures SamplesFrom(data, i) == [KeyAt(data, i)] + SamplesFrom(data, i + 20)
  {
  }

  lemma Regroup<T>(a: seq<T>, x: T, b: seq<T>)
    ensures a + ([x] + b) == (a + [x]) + b
  {
  }

  lemma HistogramSnoc(taken: seq<Rgb>, c: Rgb)
    ensures Histogram(taken + [c]) == Bump(Histogram(taken), c)
  {
    assert (taken + [c])[..|taken|] == taken;
  }

  /** The `extract()` closure: the sampling loop steps 20 bytes at a time
      and builds the `counts` object; the entries are then ranked. */
  method Extract(data: seq<nat>) returns (colours: seq<Rgb>)
    ensures colours == Swatches(data)
  {
    var counts: seq<Bin> := [];
    ghost var taken: seq<Rgb> := [];
    var i := 0;
    while i < |data|
      invariant taken + SamplesFrom(data, i) == SamplesFrom(data, 0)
      invariant counts == Histogram(taken)
      decreases |data| - i
    {
      var rgb := KeyAt(data, i);
      SamplesStep(data, i);
      HistogramSnoc(taken, rgb);
      Regroup(taken, rgb, SamplesFrom(data, i + 20));
      counts := Bump(counts, rgb);
      taken := taken + [rgb];
      i := i + 20;
    }
    assert SamplesFrom(data, i) == [];
    assert taken == taken + SamplesFrom(data, i);
    colours := ColoursOf(TopBins(counts));
  }

  // ---------------------------------------------------------------------
  // The panel and its inspector

  datatype Pane = Inspector(item: Item) | SystemStats

  /** The inspector while an item is previewed, the system statistics
      otherwise. */
  function PaneFor(previewItem: Option<Item>): (p: Pane)
    ensures p.Inspector? <==> previewItem.Some?
    ensures p.Inspector? ==> p.item == previewItem.value
  {
    if previewItem.Some? then Inspector(previewItem.value) else SystemStats
  }

  /** The swatch state of `InspectorContent`. */
  class SwatchState {
    var colours: seq<Rgb>

    constructor ()
      ensures colours == []
    {
      colours := [];
    }

    /** The effect that runs when the item changes: it extracts only when
        the image element exists and has finished loading; otherwise the
        swatches of the previous item stay. */
    method OnItemChange(imagePresent: bool, complete: bool, data: seq<nat>)
      modifies this
      ensures colours == if imagePresent && complete then Swatches(data) else old(colours)
    {
      if !imagePresent {
        return;
      }
      if complete {
        colours := Extract(data);
      }
    }
  }

  // ---------------------------------------------------------------------
  // MiniPlayer

  class MiniPlayer {
    var track: Option<Item>
    var isPlaying: bool

    constructor (track: Option<Item>)
      ensures this.track == track && isPlaying == track.Some?
    {
      this.track := track;
      isPlaying := track.Some?;
    }

    /** The effect on a new `track` value: a track starts playing; clearing
        the track leaves the flag as it was. */
    method NewTrack(t: Option<Item>)
      modifies this
      ensures track == t
      ensures isPlaying == if t.Some? then true else old(isPlaying)
    {
      track := t;
      if t.Some? {
        isPlaying := true;
      }
    }

    /** The play/pause button, rendered only while there is a track. */
    method Toggle()
      requires track.Some?
      modifies this
      ensures isPlaying == !old(isPlaying) && track == old(track)
    {
      isPlaying := !isPlaying;
    }

    /** `onEnded`. */
    method Ended()
      modifies this
      ensures !isPlaying && track == old(track)
    {
      isPlaying := false;
    }
  }
}
