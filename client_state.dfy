/** State rules both client shells share: the `playTrack` toggle of
    `src/App.jsx` and `src/components/App.jsx`, and the selection toggle
    each of them applies to a fresh copy of the selected set. */
module ClientState {
  import opened Common
  import opened Media

  /** The `currentTrack` / `isPlaying` pair. */
  datatype Player = Player(track: Option<Item>, playing: bool)

  /** `currentTrack?.path === track.path`. */
  predicate IsCurrent(p: Player, track: Item) {
    p.track.Some? && p.track.value.path == track.path
  }

  /** `playTrack(track)`: the current track (same path) flips between
      playing and paused and stays; any other track becomes current and
      plays. */
  function Play(p: Player, track: Item): (r: Player)
    ensures r.track.Some? && r.track.value.path == track.path
    ensures IsCurrent(p, track) ==> r.track == p.track && r.playing == !p.playing
    ensures !IsCurrent(p, track) ==> r.track == Some(track) && r.playing
  {
    if IsCurrent(p, track) then Player(p.track, !p.playing) else Player(Some(track), true)
  }

  /** Pressing the same track twice: the current track comes back to where
      it was; a new one ends up current and paused. */
  lemma PlayTwice(p: Player, track: Item)
    ensures Play(Play(p, track), track) == if IsCurrent(p, track) then p else Player(Some(track), false)
  {
  }

  /** `next = new Set(selected); next.has(path) ? next.delete(path) : next.add(path)`. */
  function Toggled(selected: set<string>, path: string): (next: set<string>)
    ensures path in next <==> path !in selected
    ensures forall q :: q != path ==> (q in next <==> q in selected)
  {
    if path in selected then selected - {path} else selected + {path}
  }

  /** Toggling the same path twice gives back the selection. */
  lemma ToggledTwice(selected: set<string>, path: string)
    ensures Toggled(Toggled(selected, path), path) == selected
  {
  }

  /** Toggling changes the size of the selection by exactly one. */
  lemma ToggledSize(selected: set<string>, path: string)
    ensures |Toggled(selected, path)| == if path in selected then |selected| - 1 else |selected| + 1
  {
  }
}
