/** The 3D "memory galaxy" of `GalaxyView.jsx`:
    - `MemoryGalaxy` picks the stars from the item list and places each one,
      falling back to a random coordinate (its `useMemo` over `items`);
    - `GalaxyController` frames the camera on the stars' centroid, once;
    - `MemoryStar` keeps a `hovered` and a `dreaming` flag per star, flipped
      by pointer events and by a six-second attention trial with a
      four-second dwell, and derives the popup, the ring, the colour and the
      tag label from them.
    `Math.random()` is a sequence of draws handed in by the caller; the
    interval and the timeout are events on an explicit millisecond clock. */
module GalaxyView {
  import opened Common
  import opened Media
  import WebUrl

  const ImageCap: nat := 600
  const AudioCap: nat := 200
  const CameraDepth: real := 18.0
  const DreamChance: real := 0.99
  const TrialMs: nat := 6000
  const DwellMs: nat := 4000

  datatype Vec3 = Vec3(x: real, y: real, z: real)

  datatype Star = Star(item: Item, position: Vec3)

  // ---------------------------------------------------------------------
  // MemoryGalaxy: which items become stars

  /** `i.type === k && i.x !== null`: an undefined `x` passes, a null one does not. */
  predicate Eligible(it: Item, k: Kind) {
    it.kind == k && it.x != Null
  }

  function Candidates(items: seq<Item>, k: Kind): seq<Item>
  {
    Filter(items, it => Eligible(it, k))
  }

  /** `[...images.slice(0, 600), ...audio.slice(0, 200)]`. */
  function SelectStars(items: seq<Item>): seq<Item>
  {
    Take(Candidates(items, Image), ImageCap) + Take(Candidates(items, Audio), AudioCap)
  }

  /** The selection is the first (at most) 600 eligible images in input
      order followed by the first (at most) 200 eligible audio items, so at
      most 800 stars, every image before every audio item, and nothing of
      another kind or with a null `x`. */
  lemma SelectStarsShape(items: seq<Item>)
    ensures var r := SelectStars(items);
      var n := Min(|Candidates(items, Image)|, ImageCap);
      && n <= ImageCap && |r| - n <= AudioCap && |r| <= ImageCap + AudioCap
      && r[..n] == Candidates(items, Image)[..n]
      && r[n..] == Candidates(items, Audio)[..|r| - n]
      && (forall i :: 0 <= i < n ==> r[i].kind == Image)
      && (forall i :: n <= i < |r| ==> r[i].kind == Audio)
      && (forall it :: it in r ==> it in items && it.x != Null && (it.kind == Image || it.kind == Audio))
  {
    var imgs := Take(Candidates(items, Image), ImageCap);
    var auds := Take(Candidates(items, Audio), AudioCap);
    var r := imgs + auds;
    assert r[..|imgs|] == imgs && r[|imgs|..] == auds;
    forall i | 0 <= i < |imgs| ensures r[i].kind == Image {
      assert r[i] == imgs[i] && imgs[i] in Candidates(items, Image);
    }
    forall i | |imgs| <= i < |r| ensures r[i].kind == Audio {
      assert r[i] == auds[i - |imgs|] && auds[i - |imgs|] in Candidates(items, Audio);
    }
    forall it | it in r ensures it in items && it.x != Null && (it.kind == Image || it.kind == Audio) {
      if it in imgs {
        assert it in Candidates(items, Image);
      } else {
        assert it in auds;
        assert it in Candidates(items, Audio);
      }
    }
  }

  /** Candidates keep input order: they distribute over concatenation. */
  lemma CandidatesConcat(a: seq<Item>, b: seq<Item>, k: Kind)
    ensures Candidates(a + b, k) == Candidates(a, k) + Candidates(b, k)
  {
    FilterConcat(a, b, it => Eligible(it, k));
  }

  // ---------------------------------------------------------------------
  // MemoryGalaxy: where each star goes

  /** `item.c || (Math.random() * 10 - 5)` for one coordinate and one draw. */
  function Coord(c: JsNum, draw: real): real
  {
    if TruthyNum(c) then c.value else draw * 10.0 - 5.0
  }

  /** How many draws one item consumes: `||` only calls `Math.random()` for a
      falsy coordinate. */
  function DrawsUsed(it: Item): nat
  {
    (if TruthyNum(it.x) then 0 else 1) + (if TruthyNum(it.y) then 0 else 1)
    + (if TruthyNum(it.z) then 0 else 1)
  }

  function PlaceOne(it: Item, draws: seq<real>): Vec3
    requires |draws| >= 3
  {
    var i := if TruthyNum(it.x) then 0 else 1;
    var j := i + (if TruthyNum(it.y) then 0 else 1);
    Vec3(Coord(it.x, draws[0]), Coord(it.y, draws[i]), Coord(it.z, draws[j]))
  }

  predicate UnitDraws(draws: seq<real>) {
    forall k :: 0 <= k < |draws| ==> 0.0 <= draws[k] < 1.0
  }

  predicate InFallbackRange(v: real) {
    -5.0 <= v < 5.0
  }

  /** One star per selected item, in order. Each coordinate is the item's own
      value when truthy; otherwise it is a draw mapped to [-5, 5). */
  function PlaceAll(sel: seq<Item>, draws: seq<real>): (r: seq<Star>)
    requires |draws| >= 3 * |sel|
    ensures |r| == |sel|
    ensures forall i :: 0 <= i < |r| ==> r[i].item == sel[i]
    ensures forall i :: 0 <= i < |r| && TruthyNum(sel[i].x) ==> r[i].position.x == sel[i].x.value
    ensures forall i :: 0 <= i < |r| && TruthyNum(sel[i].y) ==> r[i].position.y == sel[i].y.value
    ensures forall i :: 0 <= i < |r| && TruthyNum(sel[i].z) ==> r[i].position.z == sel[i].z.value
    ensures UnitDraws(draws) ==> forall i :: 0 <= i < |r| ==>
      && (!TruthyNum(sel[i].x) ==> InFallbackRange(r[i].position.x))
      && (!TruthyNum(sel[i].y) ==> InFallbackRange(r[i].position.y))
      && (!TruthyNum(sel[i].z) ==> InFallbackRange(r[i].position.z))
  {
    if sel == [] then []
    else
      var rest := PlaceAll(sel[1..], draws[DrawsUsed(sel[0])..]);
      [Star(sel[0], PlaceOne(sel[0], draws))] + rest
  }

  /** The `stars` memo of `MemoryGalaxy`. The caller supplies enough draws
      for three per star (800 stars at most). */
  function Stars(items: seq<Item>, draws: seq<real>): seq<Star>
    requires |draws| >= 3 * |SelectStars(items)|
  {
    PlaceAll(SelectStars(items), draws)
  }

  /** A coordinate of exactly 0 is treated as missing: any item whose `x`
      is 0 gets a drawn `x` instead, so it leaves the origin for every draw
      but the middle one. */
  lemma ZeroCoordinateIsResampled(it: Item, draws: seq<real>)
    requires it.x == Num(0.0) && |draws| >= 3
    ensures PlaceAll([it], draws)[0].position.x == draws[0] * 10.0 - 5.0
    ensures PlaceAll([it], draws)[0].position.x == 0.0 <==> draws[0] == 0.5
  {
  }

  /** `MemoryGalaxy` with its memo: stars are recomputed, and every fallback
      coordinate drawn again, whenever a new `items` array arrives (array
      identity is `itemsRef`); re-rendering with the same array keeps them. */
  class GalaxyScene {
    var itemsRef: nat
    var stars: seq<Star>
    /** The items passed to `onSelectNode`, one per click, oldest first. */
    var selections: seq<Item>

    constructor (items: seq<Item>, ref: nat, draws: seq<real>)
      requires |draws| >= 3 * |SelectStars(items)|
      ensures itemsRef == ref && stars == Stars(items, draws) && selections == []
    {
      itemsRef := ref;
      stars := Stars(items, draws);
      selections := [];
    }

    method Render(items: seq<Item>, ref: nat, draws: seq<real>)
      requires |draws| >= 3 * |SelectStars(items)|
      modifies this
      ensures itemsRef == ref && selections == old(selections)
      ensures ref == old(itemsRef) ==> stars == old(stars)
      ensures ref != old(itemsRef) ==> stars == Stars(items, draws)
    {
      if ref != itemsRef {
        stars := Stars(items, draws);
        itemsRef := ref;
      }
    }

    /** Clicking star `i` calls `onSelectNode` once, with that star's item. */
    method Click(i: nat)
      requires i < |stars|
      modifies this
      ensures selections == old(selections) + [old(stars)[i].item]
      ensures stars == old(stars) && itemsRef == old(itemsRef)
    {
      selections := selections + [stars[i].item];
    }
  }

  // ---------------------------------------------------------------------
  // GalaxyController: centroid framing behind a one-shot guard

  /** One coordinate of a position: 0 is x, 1 is y, 2 is z. */
  function Component(v: Vec3, axis: nat): real
  {
    if axis == 0 then v.x else if axis == 1 then v.y else v.z
  }

  function AxisSum(stars: seq<Star>, axis: nat): real
  {
    if stars == [] then 0.0 else Component(stars[0].position, axis) + AxisSum(stars[1..], axis)
  }

  /** The mean of the star positions, the point the camera looks at. */
  function Centroid(stars: seq<Star>): Vec3
    requires |stars| > 0
  {
    var n := |stars| as real;
    Vec3(AxisSum(stars, 0) / n, AxisSum(stars, 1) / n, AxisSum(stars, 2) / n)
  }

  predicate InBox(v: Vec3, lo: Vec3, hi: Vec3) {
    lo.x <= v.x <= hi.x && lo.y <= v.y <= hi.y && lo.z <= v.z <= hi.z
  }

  lemma {:induction false} AxisSumBounds(stars: seq<Star>, axis: nat, lo: real, hi: real)
    requires forall s :: s in stars ==> lo <= Component(s.position, axis) <= hi
    ensures lo * (|stars| as real) <= AxisSum(stars, axis) <= hi * (|stars| as real)
  {
    if stars != [] {
      AxisSumBounds(stars[1..], axis, lo, hi);
      var m := |stars[1..]| as real;
      assert |stars| as real == m + 1.0;
      assert stars[0] in stars;
      assert lo * (m + 1.0) == lo * m + lo;
      assert hi * (m + 1.0) == hi * m + hi;
    }
  }

  lemma DivideBounds(lo: real, s: real, hi: real, n: real)
    requires n > 0.0 && lo * n <= s <= hi * n
    ensures lo <= s / n <= hi
  {
    assert s / n * n == s;
  }

  lemma AxisMeanBounds(stars: seq<Star>, axis: nat, lo: real, hi: real)
    requires |stars| > 0
    requires forall s :: s in stars ==> lo <= Component(s.position, axis) <= hi
    ensures lo <= AxisSum(stars, axis) / (|stars| as real) <= hi
  {
    AxisSumBounds(stars, axis, lo, hi);
    DivideBounds(lo, AxisSum(stars, axis), hi, |stars| as real);
  }

  /** The centroid lies inside every box that holds all the stars; with
      fallback stars only, the camera aims inside the [-5, 5) cube. */
  lemma CentroidInBox(stars: seq<Star>, lo: Vec3, hi: Vec3)
    requires |stars| > 0
    requires forall s :: s in stars ==> InBox(s.position, lo, hi)
    ensures InBox(Centroid(stars), lo, hi)
  {
    AxisMeanBounds(stars, 0, lo.x, hi.x);
    AxisMeanBounds(stars, 1, lo.y, hi.y);
    AxisMeanBounds(stars, 2, lo.z, hi.z);
  }

  /** `GalaxyController`: the camera pose, the orbit controls' target (when
      there are controls) and the `initialized` ref. The ref is never reset,
      so framing happens at most once for the life of the controller, even
      when the stars later become empty and are repopulated. */
  class CameraController {
    var initialized: bool
    var cameraPos: Vec3
    var lookTarget: Vec3
    var orbitTarget: Vec3
    const hasControls: bool
    /** How many times the camera has been framed. */
    ghost var framings: nat

    ghost predicate Valid()
      reads this
    {
      framings == if initialized then 1 else 0
    }

    constructor (camera: Vec3, look: Vec3, orbit: Vec3, controls: bool)
      ensures Valid() && !initialized
      ensures cameraPos == camera && lookTarget == look && orbitTarget == orbit
      ensures hasControls == controls
    {
      initialized := false;
      cameraPos, lookTarget, orbitTarget := camera, look, orbit;
      hasControls := controls;
      framings := 0;
    }

    /** The effect that runs whenever `stars` changes. */
    method OnStars(stars: seq<Star>)
      requires Valid()
      modifies this
      ensures Valid() && framings <= 1
      ensures old(initialized) || stars == [] ==>
        initialized == old(initialized) && cameraPos == old(cameraPos)
        && lookTarget == old(lookTarget) && orbitTarget == old(orbitTarget)
      ensures !old(initialized) && stars != [] ==>
        var c := Centroid(stars);
        && initialized
        && cameraPos == Vec3(c.x, c.y, c.z + CameraDepth)
        && lookTarget == c
        && orbitTarget == (if hasControls then c else old(orbitTarget))
    {
      if |stars| > 0 && !initialized {
        var c := Centroid(stars);
        cameraPos := Vec3(c.x, c.y, c.z + CameraDepth);
        lookTarget := c;
        if hasControls {
          orbitTarget := c;
        }
        initialized := true;
        framings := framings + 1;
      }
    }

    /** The user moves the camera with the orbit controls. */
    method UserMove(pos: Vec3)
      requires Valid()
      modifies this
      ensures Valid() && cameraPos == pos
      ensures initialized == old(initialized) && lookTarget == old(lookTarget)
      ensures orbitTarget == old(orbitTarget)
    {
      cameraPos := pos;
    }
  }

  // ---------------------------------------------------------------------
  // MemoryStar: hover, dreaming and what they show

  /** `showPopup = hovered || dreaming`. */
  function ShowPopup(hovered: bool, dreaming: bool): bool
  {
    hovered || dreaming
  }

  /** The sphere colour depends on whether the popup is shown and on the
      kind only, never on which of hover or dreaming caused it. */
  function StarColour(shown: bool, isAudio: bool): string
  {
    if shown then (if isAudio then "#ff0055" else "#0a84ff")
    else (if isAudio then "#a855f7" else "#bfdbfe")
  }

  /** A star shows the accent colour exactly when it is hovered or
      dreamed of, whichever of the two it is. */
  lemma AccentSameForHoverAndDream(hovered: bool, dreaming: bool, isAudio: bool)
    ensures StarColour(ShowPopup(hovered, dreaming), isAudio) == StarColour(true, isAudio) <==> hovered || dreaming
    ensures StarColour(ShowPopup(hovered, dreaming), isAudio) == StarColour(false, isAudio) <==> !hovered && !dreaming
  {
  }

  /** The popup body: the audio title, or the image URL (`imgUrl` is null for audio). */
  datatype Popup = AudioTitle(title: Option<string>) | Picture(url: string)

  function PopupContent(it: Item, apiBase: string): Popup
  {
    if it.kind == Audio then AudioTitle(it.title)
    else Picture(WebUrl.ThumbOrRawUrl(apiBase, it.thumb, it.displayPath))
  }

  datatype Look = Look(colour: string, ring: bool, popup: Option<Popup>, tagLabel: Option<string>)

  class StarNode {
    const item: Item
    var hovered: bool
    var dreaming: bool
    /** Milliseconds since the star mounted. */
    var now: nat
    /** The `setInterval` of the attention trial has not been cleared. */
    var intervalLive: bool
    var nextTrial: nat
    /** When the pending `setTimeout(() => setDreaming(false), 4000)` fires. */
    var wakeAt: Option<nat>

    /** `dreaming` is set exactly while a dwell timeout is pending, and a dwell
        always ends before the next trial, so a trial never finds the star
        already dreaming. */
    ghost predicate Valid()
      reads this
    {
      && (dreaming <==> wakeAt.Some?)
      && (wakeAt.Some? ==> now < wakeAt.value <= now + DwellMs)
      && (intervalLive ==> now < nextTrial && nextTrial % TrialMs == 0)
      && (intervalLive && wakeAt.Some? ==> wakeAt.value < nextTrial)
    }

    constructor (it: Item)
      ensures Valid() && item == it
      ensures !hovered && !dreaming && intervalLive && now == 0 && nextTrial == TrialMs
    {
      item := it;
      hovered, dreaming := false, false;
      now := 0;
      intervalLive := true;
      nextTrial := TrialMs;
      wakeAt := None;
    }

    method PointerOver()
      requires Valid()
      modifies this
      ensures Valid() && hovered
      ensures dreaming == old(dreaming) && now == old(now) && wakeAt == old(wakeAt)
      ensures intervalLive == old(intervalLive) && nextTrial == old(nextTrial)
    {
      hovered := true;
    }

    method PointerOut()
      requires Valid()
      modifies this
      ensures Valid() && !hovered
      ensures dreaming == old(dreaming) && now == old(now) && wakeAt == old(wakeAt)
      ensures intervalLive == old(intervalLive) && nextTrial == old(nextTrial)
    {
      hovered := false;
    }

    /** Advance the clock to the next timer event and run it. A pending dwell
        ends first; otherwise the interval fires a trial with `draw` as the
        value of `Math.random()`. */
    method NextTimer(draw: real)
      requires Valid()
      modifies this
      ensures Valid() && hovered == old(hovered) && now >= old(now)
      ensures old(wakeAt).Some? ==> !dreaming && now == old(wakeAt).value && nextTrial == old(nextTrial)
      ensures old(wakeAt).None? && old(intervalLive) ==>
        && now == old(nextTrial) && nextTrial == old(nextTrial) + TrialMs
        && (dreaming <==> draw > DreamChance)
        && (dreaming ==> wakeAt == Some(now + DwellMs))
      ensures old(wakeAt).None? && !old(intervalLive) ==> now == old(now) && !dreaming
      ensures dreaming && !old(dreaming) ==> draw > DreamChance && now % TrialMs == 0
      ensures intervalLive == old(intervalLive)
    {
      if wakeAt.Some? {
        now := wakeAt.value;
        dreaming := false;
        wakeAt := None;
      } else if intervalLive {
        now := nextTrial;
        nextTrial := nextTrial + TrialMs;
        if draw > DreamChance {
          dreaming := true;
          wakeAt := Some(now + DwellMs);
        }
      }
    }

    /** Unmount: the interval is cleared; a pending dwell timeout still fires. */
    method Unmount()
      requires Valid()
      modifies this
      ensures Valid() && !intervalLive
      ensures hovered == old(hovered) && dreaming == old(dreaming) && wakeAt == old(wakeAt)
    {
      intervalLive := false;
    }

    /** What the star shows: colour, glow ring, popup and tag label. */
    function Appearance(apiBase: string): (l: Look)
      reads this
      ensures l.ring <==> hovered || dreaming
      ensures l.popup.Some? <==> hovered || dreaming
      ensures l.colour == StarColour(hovered || dreaming, item.kind == Audio)
      ensures l.tagLabel.Some? <==> item.tags.Some? && |item.tags.value| > 0 && !hovered && !dreaming
      ensures l.tagLabel.Some? ==> l.tagLabel.value == item.tags.value[0]
    {
      var shown := ShowPopup(hovered, dreaming);
      Look(StarColour(shown, item.kind == Audio), shown,
           if shown then Some(PopupContent(item, apiBase)) else None,
           if item.tags.Some? && |item.tags.value| > 0 && !shown then Some(item.tags.value[0]) else None)
    }
  }
}
