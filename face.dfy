/** The face detector of `face_engine.py`: the lazily loaded detector and
    the loop of `detect` that pads every detected box by a fifth of its size,
    clamps it to the image and records its score.

    MediaPipe itself is not modelled: its detections for the image are an
    input, and loading the detector is a flag. */
module Face {

  /** `detection.bounding_box` (pixel origin and size) and the scores of
      `detection.categories`. */
  datatype Box = Box(originX: int, originY: int, width: int, height: int)

  datatype Detection = Detection(box: Box, categories: seq<real>)

  /** One entry of the list `detect` returns. The embedding is always
      `None`, so it is not carried. */
  datatype Face = Face(x1: int, y1: int, x2: int, y2: int, score: real)

  /** `int(n * 0.2)`: a fifth, truncated toward zero like Python's `int`. */
  function Pad(n: int): (p: int)
    ensures n >= 0 ==> 0 <= p && 5 * p <= n < 5 * p + 5
    ensures n < 0 ==> p <= 0 && -n - 5 < -5 * p <= -n
  {
    if n >= 0 then n / 5 else -((-n) / 5)
  }

  function IMax(a: int, b: int): int { if a <= b then b else a }

  function IMin(a: int, b: int): int { if a <= b then a else b }

  /** The face recorded for one detection in a `w` by `h` image. */
  function FaceOf(d: Detection, w: int, h: int): Face
  {
    var b := d.box;
    var padX := Pad(b.width);
    var padY := Pad(b.height);
    Face(IMax(0, b.originX - padX), IMax(0, b.originY - padY),
         IMin(w, b.originX + b.width + padX), IMin(h, b.originY + b.height + padY),
         if |d.categories| > 0 then d.categories[0] else 0.5)
  }

  /** Every recorded box lies inside the image on each side; a box that
      has room keeps its padding, so it contains the detected box; the
      score is the first category's, else 0.5. */
  lemma FaceBounds(d: Detection, w: int, h: int)
    ensures var f := FaceOf(d, w, h);
      && f.x1 >= 0 && f.y1 >= 0 && f.x2 <= w && f.y2 <= h
      && f.score == (if |d.categories| > 0 then d.categories[0] else 0.5)
    ensures var f := FaceOf(d, w, h);
      d.box.width >= 0 && d.box.height >= 0 ==>
        && f.x1 <= IMax(0, d.box.originX) && f.y1 <= IMax(0, d.box.originY)
        && f.x2 >= IMin(w, d.box.originX + d.box.width) && f.y2 >= IMin(h, d.box.originY + d.box.height)
    ensures var f := FaceOf(d, w, h); var b := d.box;
      b.originX - Pad(b.width) >= 0 && b.originX + b.width + Pad(b.width) <= w ==>
        f.x2 - f.x1 == b.width + 2 * Pad(b.width)
  {
  }

  class FaceEngine {
    var detectorLoaded: bool
    /** How many times a detector has been created. */
    var loads: nat

    /** The singleton starts without a detector. */
    constructor ()
      ensures !detectorLoaded && loads == 0
    {
      detectorLoaded, loads := false, 0;
    }

    /** `load()`: creates the detector only when there is none yet. */
    method Load()
      modifies this
      ensures detectorLoaded
      ensures loads == if old(detectorLoaded) then old(loads) else old(loads) + 1
    {
      if !detectorLoaded {
        detectorLoaded := true;
        loads := loads + 1;
      }
    }

    /** `detect(img)` for an image of width `w` and height `h` on which the
        detector finds `detections`: the detector is loaded first if it is
        missing, and there is one face per detection, in order. */
    method Detect(w: nat, h: nat, detections: seq<Detection>) returns (faces: seq<Face>)
      modifies this
      ensures detectorLoaded
      ensures loads == if old(detectorLoaded) then old(loads) else old(loads) + 1
      ensures faces == Faces(detections, w, h)
    {
      if !detectorLoaded {
        Load();
      }
      faces := BoxFaces(detections, w, h);
    }
  }

  /** The face list `detect` builds, as a function of the detections. */
  function Faces(detections: seq<Detection>, w: int, h: int): (r: seq<Face>)
    ensures |r| == |detections|
  {
    seq(|detections|, k requires 0 <= k < |detections| => FaceOf(detections[k], w, h))
  }

  /** The loop of `detect`: one padded, clamped face appended per detection. */
  method BoxFaces(detections: seq<Detection>, w: int, h: int) returns (faces: seq<Face>)
    ensures |faces| == |detections|
    ensures forall k :: 0 <= k < |faces| ==> faces[k] == FaceOf(detections[k], w, h)
    ensures faces == Faces(detections, w, h)
  {
    faces := [];
    for i := 0 to |detections|
      invariant |faces| == i
      invariant forall k :: 0 <= k < i ==> faces[k] == FaceOf(detections[k], w, h)
    {
      var b := detections[i].box;
      var x1 := b.originX;
      var y1 := b.originY;
      var x2 := b.originX + b.width;
      var y2 := b.originY + b.height;
      var padX := Pad(b.width);
      var padY := Pad(b.height);
      x1 := IMax(0, x1 - padX);
      y1 := IMax(0, y1 - padY);
      x2 := IMin(w, x2 + padX);
      y2 := IMin(h, y2 + padY);
      var score := if |detections[i].categories| > 0 then detections[i].categories[0] else 0.5;
      faces := faces + [Face(x1, y1, x2, y2, score)];
    }
  }

  /** Every face `detect` returns lies inside the image. */
  lemma FacesInside(detections: seq<Detection>, w: int, h: int)
    ensures forall f :: f in Faces(detections, w, h) ==> f.x1 >= 0 && f.y1 >= 0 && f.x2 <= w && f.y2 <= h
  {
    forall f | f in Faces(detections, w, h)
      ensures f.x1 >= 0 && f.y1 >= 0 && f.x2 <= w && f.y2 <= h
    {
      var k :| 0 <= k < |detections| && Faces(detections, w, h)[k] == f;
      FaceBounds(detections[k], w, h);
    }
  }
}
