/** The result grid of `GridView.jsx`: the audio pills and the image
    cards it derives from the item list, their flags, the image URL, and
    what a click on a card does. The component keeps no state. */
module Grid {
  import opened Common
  import opened Media
  import opened WebUrl

  datatype Pill = Pill(item: Item, isActive: bool, showsPause: bool, caption: string)

  datatype Card = Card(item: Item, isSelected: bool, imgUrl: string, tagChips: seq<string>)

  /** The grid: the pill row (absent when there is no audio) and the cards. */
  datatype Layout = Layout(audioRow: Option<seq<Pill>>, cards: seq<Card>)

  /** `item.metadata?.title || item.display_path.split('/').pop()`. */
  function PillCaption(item: Item): string
  {
    if TruthyText(item.title) then item.title.value
    else var segs := Split(item.displayPath, '/'); segs[|segs| - 1]
  }

  function MakePill(item: Item, currentTrack: Option<Item>, isPlaying: bool): (p: Pill)
  {
    var active := currentTrack.Some? && currentTrack.value.path == item.path;
    Pill(item, active, active && isPlaying, PillCaption(item))
  }

  /** The tag chips of a card: its tags when there are some. */
  function TagChips(item: Item): seq<string>
  {
    if item.tags.Some? && |item.tags.value| > 0 then item.tags.value else []
  }

  function MakeCard(item: Item, selected: set<string>, apiBase: string): Card
  {
    Card(item, item.path in selected, ThumbOrRawUrl(apiBase, item.thumb, item.displayPath), TagChips(item))
  }

  function Pills(audio: seq<Item>, currentTrack: Option<Item>, isPlaying: bool): (r: seq<Pill>)
    ensures |r| == |audio|
    ensures forall k :: 0 <= k < |audio| ==> r[k] == MakePill(audio[k], currentTrack, isPlaying)
  {
    seq(|audio|, k requires 0 <= k < |audio| => MakePill(audio[k], currentTrack, isPlaying))
  }

  function Cards(images: seq<Item>, selected: set<string>, apiBase: string): (r: seq<Card>)
    ensures |r| == |images|
    ensures forall k :: 0 <= k < |images| ==> r[k] == MakeCard(images[k], selected, apiBase)
  {
    seq(|images|, k requires 0 <= k < |images| => MakeCard(images[k], selected, apiBase))
  }

  function GridLayout(items: seq<Item>, selected: set<string>, apiBase: string,
                      currentTrack: Option<Item>, isPlaying: bool): Layout
  {
    var audio := AudioOf(items);
    Layout(if |audio| > 0 then Some(Pills(audio, currentTrack, isPlaying)) else None,
           Cards(ImagesOf(items), selected, apiBase))
  }

  /** The pills show the audio items and the cards the image items, in
      list order; the pill row is there exactly when some item is audio. */
  lemma LayoutRows(items: seq<Item>, selected: set<string>, apiBase: string,
                   currentTrack: Option<Item>, isPlaying: bool)
    ensures var g := GridLayout(items, selected, apiBase, currentTrack, isPlaying);
      && (g.audioRow.Some? <==> exists k :: 0 <= k < |items| && IsAudio(items[k]))
      && (g.audioRow.Some? ==>
            && |g.audioRow.value| == |AudioOf(items)|
            && forall k :: 0 <= k < |g.audioRow.value| ==> g.audioRow.value[k].item == AudioOf(items)[k])
      && |g.cards| == |ImagesOf(items)|
      && (forall k :: 0 <= k < |g.cards| ==> g.cards[k].item == ImagesOf(items)[k])
  {
    var g := GridLayout(items, selected, apiBase, currentTrack, isPlaying);
    var audio := AudioOf(items);
    AudioPresent(items);
    if |audio| > 0 {
      assert g.audioRow == Some(Pills(audio, currentTrack, isPlaying));
    } else {
      assert g.audioRow == None;
    }
    assert g.cards == Cards(ImagesOf(items), selected, apiBase);
  }

  /** Some item is audio exactly when the audio list is non-empty. */
  lemma AudioPresent(items: seq<Item>)
    ensures |AudioOf(items)| > 0 <==> exists k :: 0 <= k < |items| && IsAudio(items[k])
  {
    if exists k :: 0 <= k < |items| && IsAudio(items[k]) {
      var k :| 0 <= k < |items| && IsAudio(items[k]);
      assert items[k] in AudioOf(items);
    }
    if |AudioOf(items)| > 0 {
      var a := AudioOf(items)[0];
      assert a in AudioOf(items);
    }
  }

  /** Every copy of an audio item is a pill and every copy of an image item
      a card; an item of any other kind (video, say) is in neither. */
  lemma KindCounts(items: seq<Item>, x: Item)
    ensures multiset(AudioOf(items))[x] == (if IsAudio(x) then multiset(items)[x] else 0)
    ensures multiset(ImagesOf(items))[x] == (if IsImage(x) then multiset(items)[x] else 0)
  {
    FilterMultisetExact(items, AudioTest(), x);
    FilterMultisetExact(items, ImageTest(), x);
  }

  /** A card is selected exactly when its path is in the selection, and its
      image is the thumbnail when there is one, else the raw file with each
      path segment encoded. */
  lemma CardFlags(items: seq<Item>, selected: set<string>, apiBase: string, k: nat)
    requires k < |ImagesOf(items)|
    ensures var c := Cards(ImagesOf(items), selected, apiBase)[k];
      && (c.isSelected <==> c.item.path in selected)
      && (TruthyText(c.item.thumb) ==> c.imgUrl == apiBase + c.item.thumb.value)
      && (!TruthyText(c.item.thumb) ==> Split(c.imgUrl[|apiBase + "/raw/"|..], '/') == EncodeAll(Split(c.item.displayPath, '/')))
  {
    var c := Cards(ImagesOf(items), selected, apiBase)[k];
    if !TruthyText(c.item.thumb) {
      EncodePathKeepsSegments(c.item.displayPath);
      assert c.imgUrl == apiBase + "/raw/" + EncodePath(c.item.displayPath);
      assert c.imgUrl[|apiBase + "/raw/"|..] == EncodePath(c.item.displayPath);
    }
  }

  /** A pill is active exactly when it is the current track (by path) and
      shows pause exactly when it is active and playing; when audio paths
      are distinct, at most one pill is active. */
  lemma PillFlags(audio: seq<Item>, currentTrack: Option<Item>, isPlaying: bool, i: nat, j: nat)
    requires i < j < |audio|
    requires audio[i].path != audio[j].path
    ensures var ps := Pills(audio, currentTrack, isPlaying);
      && (ps[i].isActive <==> currentTrack.Some? && currentTrack.value.path == audio[i].path)
      && (ps[i].showsPause <==> ps[i].isActive && isPlaying)
      && !(ps[i].isActive && ps[j].isActive)
  {
  }

  /** Where a click on a card lands. */
  datatype Target = Dot | Body

  datatype Action = Select(path: string) | Preview(item: Item)

  /** The selection dot stops the click: it toggles the selection and
      does not open the preview; the rest of the card opens it. */
  function CardClick(card: Card, target: Target): (a: Action)
    ensures target == Dot ==> a == Select(card.item.path)
    ensures target == Body ==> a == Preview(card.item)
  {
    match target
    case Dot => Select(card.item.path)
    case Body => Preview(card.item)
  }
}
