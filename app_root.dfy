/** The first client shell, `src/App.jsx`: its playback and selection
    handlers, the scan progress percentage, `handleSearch` with its
    'everything' default and automatic soundtrack, the teach guard, the
    weave button and the galaxy node handler.

    The HTTP answers are inputs (`None` when the request throws) and the
    `Math.random()` draw is a parameter in [0, 1). */
module RootApp {
  import opened Common
  import opened Media
  import opened ClientState

  const Everything: string := "everything"

  /** `scanProgress.total > 0 ? current / total * 100 : 0`. */
  function ProgressPercent(current: int, total: int): real
  {
    if total > 0 then (current as real / total as real) * 100.0 else 0.0
  }

  /** A scan that has done `current` of `total` files shows a percentage
      in [0, 100], reaching 100 only when it is done; an empty scan shows
      0. */
  lemma ProgressBounds(current: nat, total: nat)
    requires current <= total
    ensures 0.0 <= ProgressPercent(current, total) <= 100.0
    ensures ProgressPercent(current, total) == 100.0 <==> total > 0 && current == total
  {
    if total > 0 {
      var t := total as real;
      var f := current as real / t;
      assert f * t == current as real;
      assert f <= 1.0;
      if f == 1.0 {
        assert current as real == t;
      }
    }
  }

  /** `audioMatches[Math.floor(Math.random() * Math.min(5, n))]`: an index
      among the first five audio results. */
  function PickIndex(rand: real, n: nat): (i: nat)
    requires 0.0 <= rand < 1.0 && n > 0
    ensures i < Min(5, n)
  {
    PickBound(rand, Min(5, n));
    (rand * (Min(5, n) as real)).Floor
  }

  /** A draw in [0, 1) scaled by m floors to an index below m. */
  lemma PickBound(rand: real, m: nat)
    requires 0.0 <= rand < 1.0 && 1 <= m <= 5
    ensures 0 <= (rand * (m as real)).Floor < m
  {
    var x := rand * (m as real);
    if m == 1 {
      assert x == rand;
    } else if m == 2 {
      assert x == rand + rand;
    } else if m == 3 {
      assert x == rand + rand + rand;
    } else if m == 4 {
      assert x == rand + rand + rand + rand;
    } else {
      assert x == rand + rand + rand + rand + rand;
    }
    assert 0.0 <= x < m as real;
  }

  /** The track the soundtrack would pick from a response, if it has audio. */
  function Soundtrack(data: seq<Item>, rand: real): (pick: Option<Item>)
    requires 0.0 <= rand < 1.0
    ensures pick.None? <==> AudioOf(data) == []
    ensures pick.Some? ==> pick.value in Take(AudioOf(data), 5) && IsAudio(pick.value) && pick.value in data
  {
    var am := AudioOf(data);
    if |am| > 0 then
      var i := PickIndex(rand, |am|);
      var top := Take(am, 5);
      assert |top| == Min(|am|, 5) && top == am[..|top|];
      assert i < |top| && am[i] == top[i];
      assert am[i] in am;
      Some(am[i])
    else None
  }

  class RootApp {
    var items: seq<Item>
    var selected: set<string>
    var query: string
    var threshold: real
    var isGalaxyView: bool
    var isStoryMode: bool
    var status: string
    var previewItem: Option<Item>
    var showTeachModal: bool
    var teachName: string
    var currentTrack: Option<Item>
    var isPlaying: bool

    constructor ()
      ensures items == [] && selected == {} && query == "" && threshold == 0.15
      ensures isGalaxyView && !isStoryMode && status == "Standby" && previewItem == None
      ensures !showTeachModal && teachName == "" && currentTrack == None && !isPlaying
    {
      items, selected, query, threshold := [], {}, "", 0.15;
      isGalaxyView, isStoryMode, status, previewItem := true, false, "Standby", None;
      showTeachModal, teachName, currentTrack, isPlaying := false, "", None, false;
    }

    /** `playTrack(track)`. */
    method PlayTrack(track: Item)
      modifies this
      ensures Player(currentTrack, isPlaying) == Play(Player(old(currentTrack), old(isPlaying)), track)
      ensures items == old(items) && selected == old(selected) && previewItem == old(previewItem)
      ensures isGalaxyView == old(isGalaxyView) && status == old(status)
    {
      if currentTrack.Some? && currentTrack.value.path == track.path {
        isPlaying := !isPlaying;
      } else {
        currentTrack := Some(track);
        isPlaying := true;
      }
    }

    /** `toggleSelect(path)`: the new selection is a fresh set. */
    method ToggleSelect(path: string)
      modifies this
      ensures selected == Toggled(old(selected), path)
      ensures items == old(items) && currentTrack == old(currentTrack) && isPlaying == old(isPlaying)
      ensures previewItem == old(previewItem) && isGalaxyView == old(isGalaxyView)
    {
      var next := selected;
      if path in next {
        next := next - {path};
      } else {
        next := next + {path};
      }
      selected := next;
    }

    /** `handleSearch(val)`: an empty value searches for 'everything'; any
        other query leaves the galaxy. On an answer the items are replaced,
        story mode ends, and when there is no current track one of the
        first five audio results becomes current. Returns the query sent. */
    method HandleSearch(val: Option<string>, response: Option<seq<Item>>, rand: real) returns (q: string)
      requires 0.0 <= rand < 1.0
      modifies this
      ensures q == if TruthyText(val) then val.value else Everything
      ensures isGalaxyView == (old(isGalaxyView) && q == Everything)
      ensures response.None? ==> items == old(items) && isStoryMode == old(isStoryMode)
                                 && currentTrack == old(currentTrack) && status == "Recall Failed"
      ensures response.Some? ==> items == response.value && !isStoryMode
                                 && status == "Echoes: " + NatToString(|response.value|)
      ensures response.Some? ==>
        currentTrack == (if old(currentTrack).None? then Soundtrack(response.value, rand) else old(currentTrack))
      ensures isPlaying == old(isPlaying) && selected == old(selected) && previewItem == old(previewItem)
    {
      status := "Recalling...";
      q := if TruthyText(val) then val.value else Everything;
      if q != Everything {
        isGalaxyView := false;
      }
      if response.None? {
        status := "Recall Failed";
        return;
      }
      var data := response.value;
      items := data;
      isStoryMode := false;
      var audioMatches := AudioOf(data);
      if |audioMatches| > 0 {
        var pick := audioMatches[PickIndex(rand, |audioMatches|)];
        if currentTrack.None? {
          currentTrack := Some(pick);
        }
      }
      status := "Echoes: " + NatToString(|data|);
    }

    /** `handleTeach()`: nothing happens without a name or a selection. On
        success the selection, the name and the modal are cleared and the
        query becomes the taught name, which is returned for the follow-up
        search; on failure only the status changes. */
    method HandleTeach(ok: bool) returns (searchFor: Option<string>)
      modifies this
      ensures old(teachName) == "" || |old(selected)| == 0 ==>
        searchFor == None && selected == old(selected) && teachName == old(teachName)
        && showTeachModal == old(showTeachModal) && status == old(status) && query == old(query)
      ensures old(teachName) != "" && |old(selected)| > 0 && ok ==>
        searchFor == Some(old(teachName)) && selected == {} && teachName == ""
        && !showTeachModal && query == old(teachName) && status == old(status)
      ensures old(teachName) != "" && |old(selected)| > 0 && !ok ==>
        searchFor == None && selected == old(selected) && teachName == old(teachName)
        && showTeachModal == old(showTeachModal) && status == "Teach Error" && query == old(query)
      ensures items == old(items) && currentTrack == old(currentTrack) && isPlaying == old(isPlaying)
    {
      if teachName == "" || |selected| == 0 {
        return None;
      }
      if !ok {
        status := "Teach Error";
        return None;
      }
      var name := teachName;
      selected := {};
      teachName := "";
      showTeachModal := false;
      query := name;
      searchFor := Some(name);
    }

    /** The weave button: the answer replaces the items and turns story
        mode on; a failed request changes nothing. */
    method Weave(response: Option<seq<Item>>)
      modifies this
      ensures response.Some? ==> items == response.value && isStoryMode
      ensures response.None? ==> items == old(items) && isStoryMode == old(isStoryMode)
      ensures selected == old(selected) && currentTrack == old(currentTrack) && isGalaxyView == old(isGalaxyView)
    {
      if response.Some? {
        items := response.value;
        isStoryMode := true;
      }
    }

    /** A galaxy node click previews the item and leaves the galaxy. */
    method SelectNode(item: Item)
      modifies this
      ensures previewItem == Some(item) && !isGalaxyView
      ensures items == old(items) && selected == old(selected) && currentTrack == old(currentTrack)
      ensures isPlaying == old(isPlaying)
    {
      previewItem := Some(item);
      isGalaxyView := false;
    }

    /** An identity click sets the query to the name and returns it for the
        search that follows. */
    method IdentityClick(name: string) returns (searchFor: string)
      modifies this
      ensures query == name && searchFor == name
      ensures items == old(items) && selected == old(selected) && isGalaxyView == old(isGalaxyView)
    {
      query := name;
      searchFor := name;
    }
  }
}
