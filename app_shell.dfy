/** The second client shell, `src/components/App.jsx`: playback, the
    items handed to the galaxy, the galaxy click that plays audio and
    previews anything else, the identity click, the header search, the
    grid selection, the loom (seed search) and the teach modal.

    The search hook's own state and the status/playback state it writes
    live in the `engine` object; answers of HTTP requests are inputs
    (`None` when the request throws). */
module Shell {
  import opened Common
  import opened Media
  import opened ClientState
  import opened SearchEngine

  /** `galaxyData.length > 0 ? galaxyData : items`: the full galaxy once
      it has loaded, the search results until then. */
  function GalaxyItems(galaxyData: seq<Item>, items: seq<Item>): (r: seq<Item>)
    ensures galaxyData != [] ==> r == galaxyData
    ensures galaxyData == [] ==> r == items
  {
    if |galaxyData| > 0 then galaxyData else items
  }

  class Shell {
    const engine: SearchSession
    var isGalaxyView: bool
    var previewItem: Option<Item>
    var showTeachModal: bool
    var teachName: string
    var selected: set<string>
    var galaxyData: seq<Item>

    constructor ()
      ensures fresh(engine) && engine.items == [] && engine.query == "" && engine.status == "Standby"
      ensures engine.currentTrack == None && !engine.isPlaying && !engine.isStoryMode
      ensures isGalaxyView && previewItem == None && !showTeachModal && teachName == ""
      ensures selected == {} && galaxyData == []
    {
      engine := new SearchSession();
      isGalaxyView, previewItem, showTeachModal := true, None, false;
      teachName, selected, galaxyData := "", {}, [];
    }

    /** The galaxy's `items` and `highlights`. */
    function GalaxyProps(): (props: (seq<Item>, seq<Item>))
      reads this, engine
      ensures props.1 == engine.items
    {
      (GalaxyItems(galaxyData, engine.items), engine.items)
    }

    /** `playTrack(track)`. */
    method PlayTrack(track: Item)
      modifies engine
      ensures Player(engine.currentTrack, engine.isPlaying)
           == Play(Player(old(engine.currentTrack), old(engine.isPlaying)), track)
      ensures engine.items == old(engine.items) && engine.status == old(engine.status)
      ensures engine.query == old(engine.query)
    {
      if engine.currentTrack.Some? && engine.currentTrack.value.path == track.path {
        engine.isPlaying := !engine.isPlaying;
      } else {
        engine.currentTrack := Some(track);
        engine.isPlaying := true;
      }
    }

    /** A galaxy click: audio plays (and opens nothing); anything else is
        previewed and the galaxy is left. */
    method SelectNode(item: Item)
      modifies this, engine
      ensures IsAudio(item) ==>
        && Player(engine.currentTrack, engine.isPlaying)
           == Play(Player(old(engine.currentTrack), old(engine.isPlaying)), item)
        && previewItem == old(previewItem) && isGalaxyView == old(isGalaxyView)
      ensures !IsAudio(item) ==>
        && previewItem == Some(item) && !isGalaxyView
        && engine.currentTrack == old(engine.currentTrack) && engine.isPlaying == old(engine.isPlaying)
      ensures selected == old(selected) && engine.items == old(engine.items)
    {
      if IsAudio(item) {
        PlayTrack(item);
      } else {
        previewItem := Some(item);
        isGalaxyView := false;
      }
    }

    /** `handleIdentityClick(name)`: the query becomes the name, the
        galaxy is shown, and the name is searched for. */
    method IdentityClick(name: string, response: Option<seq<Item>>) returns (sent: Option<string>)
      modifies this, engine
      ensures engine.query == name && isGalaxyView
      ensures sent == Some(Trim(name))
      ensures View(engine.items, engine.isStoryMode, engine.status, engine.currentTrack, engine.isPlaying)
           == SearchOutcome(View(old(engine.items), old(engine.isStoryMode), old(engine.status),
                                 old(engine.currentTrack), old(engine.isPlaying)),
                            name, Some(name), false, response)
      ensures selected == old(selected) && previewItem == old(previewItem)
    {
      engine.query := name;
      isGalaxyView := true;
      var pending;
      sent, pending := engine.HandleSearch(Some(name), false, response);
    }

    /** The header's search: the galaxy is left first. */
    method HeaderSearch(v: Option<string>, response: Option<seq<Item>>) returns (sent: Option<string>)
      modifies this, engine
      ensures !isGalaxyView
      ensures sent == Some(CleanQuery(v, old(engine.query)))
      ensures View(engine.items, engine.isStoryMode, engine.status, engine.currentTrack, engine.isPlaying)
           == SearchOutcome(View(old(engine.items), old(engine.isStoryMode), old(engine.status),
                                 old(engine.currentTrack), old(engine.isPlaying)),
                            old(engine.query), v, false, response)
      ensures engine.query == old(engine.query) && selected == old(selected) && previewItem == old(previewItem)
    {
      isGalaxyView := false;
      var pending;
      sent, pending := engine.HandleSearch(v, false, response);
    }

    /** The grid's selection callback: a fresh set with the path toggled. */
    method GridSelect(path: string)
      modifies this
      ensures selected == Toggled(old(selected), path)
      ensures isGalaxyView == old(isGalaxyView) && previewItem == old(previewItem)
      ensures teachName == old(teachName) && showTeachModal == old(showTeachModal)
    {
      var next := selected;
      next := if path in next then next - {path} else next + {path};
      selected := next;
    }

    /** `onLoom(p)`: the preview closes and the status says the scene is
        being woven; the answer replaces the items and the galaxy is shown.
        A failed request leaves the items and the view as they were. */
    method Loom(response: Option<seq<Item>>)
      modifies this, engine
      ensures previewItem == None && engine.status == "\U{1F9F5} Weaving scene..."
      ensures response.Some? ==> engine.items == response.value && isGalaxyView
      ensures response.None? ==> engine.items == old(engine.items) && isGalaxyView == old(isGalaxyView)
      ensures selected == old(selected) && engine.currentTrack == old(engine.currentTrack)
      ensures engine.isPlaying == old(engine.isPlaying) && engine.query == old(engine.query)
    {
      engine.status := "\U{1F9F5} Weaving scene...";
      previewItem := None;
      if response.None? {
        return;
      }
      engine.items := response.value;
      isGalaxyView := true;
    }

    /** The teach modal's confirm: once the request resolves, the
        selection, the name and the modal are cleared. There is no guard on
        an empty name or selection here. */
    method TeachConfirm(ok: bool)
      modifies this
      ensures ok ==> selected == {} && teachName == "" && !showTeachModal
      ensures !ok ==> selected == old(selected) && teachName == old(teachName) && showTeachModal == old(showTeachModal)
      ensures isGalaxyView == old(isGalaxyView) && previewItem == old(previewItem)
    {
      if ok {
        selected := {};
        teachName := "";
        showTeachModal := false;
      }
    }

    /** `handleQuickTeach(path, name)`: only the status reports the
        outcome. */
    method QuickTeach(name: string, ok: bool)
      modifies engine
      ensures engine.status == if ok then "AI Learned: " + name else "Teach Failed"
      ensures engine.items == old(engine.items) && engine.currentTrack == old(engine.currentTrack)
      ensures engine.query == old(engine.query)
    {
      if ok {
        engine.status := "AI Learned: " + name;
      } else {
        engine.status := "Teach Failed";
      }
    }

    /** The weave button: the answer replaces the items and turns story
        mode on. */
    method Weave(response: Option<seq<Item>>)
      modifies engine
      ensures response.Some? ==> engine.items == response.value && engine.isStoryMode
      ensures response.None? ==> engine.items == old(engine.items) && engine.isStoryMode == old(engine.isStoryMode)
      ensures engine.currentTrack == old(engine.currentTrack) && engine.query == old(engine.query)
    {
      if response.Some? {
        engine.items := response.value;
        engine.isStoryMode := true;
      }
    }
  }
}
