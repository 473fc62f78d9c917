/** The media item the backend returns from `/api/search`, `/api/weave` and
    `/api/galaxy/all`, as the client components read it. */
module Media {
  import opened Common

  /** The `type` field: 'image', 'audio', 'video', or anything else. */
  datatype Kind = Image | Audio | Video | OtherKind

  /** A JavaScript number field that may be `undefined` or `null`. */
  datatype JsNum = Undefined | Null | Num(value: real)

  /** `x || fallback`: `undefined`, `null` and `0` are all falsy. */
  predicate TruthyNum(n: JsNum) {
    n.Num? && n.value != 0.0
  }

  datatype Item = Item(
    path: string,
    kind: Kind,
    displayPath: string,
    thumb: Option<string>,
    score: Option<real>,
    tags: Option<seq<string>>,
    identities: Option<seq<string>>,
    x: JsNum, y: JsNum, z: JsNum,
    ts: Option<int>,
    title: Option<string>)

  predicate IsAudio(it: Item) {
    it.kind == Audio
  }

  predicate IsImage(it: Item) {
    it.kind == Image
  }

  function AudioTest(): Item -> bool
  {
    it => IsAudio(it)
  }

  function ImageTest(): Item -> bool
  {
    it => IsImage(it)
  }

  /** `items.filter(i => i.type === 'audio')`. */
  function AudioOf(items: seq<Item>): (r: seq<Item>)
    ensures forall x :: x in r ==> IsAudio(x) && x in items
    ensures forall x :: x in items && IsAudio(x) ==> x in r
  {
    Filter(items, AudioTest())
  }

  /** `items.filter(i => i.type === 'image')`. */
  function ImagesOf(items: seq<Item>): (r: seq<Item>)
    ensures forall x :: x in r ==> IsImage(x) && x in items
    ensures forall x :: x in items && IsImage(x) ==> x in r
  {
    Filter(items, ImageTest())
  }
}
