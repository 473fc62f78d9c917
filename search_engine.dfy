/** The search hook of `src/hooks/useSearchEngine.js`: how `handleSearch`
    resolves its query, the guard on automatic calls, the status texts and
    the first-audio pick.

    The hook owns `items`, `query` and `threshold`; the status, story-mode
    and playback state it writes through setters handed in by the shell
    are kept in the same object here, and the shell reads them there. The
    answer of `/api/search` is an input (`None` when the request throws). */
module SearchEngine {
  import opened Common
  import opened Media

  const Brain: string := "\U{1F9E0} Recalling: "

  /** `(typeof val === 'string' ? val : query).trim()`: `val` is `None`
      when it is not a string. */
  function CleanQuery(val: Option<string>, query: string): (q: string)
    ensures val.Some? ==> q == Trim(val.value)
    ensures val.None? ==> q == Trim(query)
  {
    Trim(if val.Some? then val.value else query)
  }

  /** The status shown while the request is in flight. */
  function PendingStatus(cleanQ: string): string
  {
    if cleanQ == "" then "Syncing latest scenes..." else Brain + cleanQ + "..."
  }

  /** The status left by the answer. */
  function FinalStatus(cleanQ: string, response: Option<seq<Item>>): string
  {
    match response
    case None => "Recall Failed"
    case Some(data) =>
      if cleanQ == "" then "Restored " + NatToString(|data|) + " scenes"
      else "Found " + NatToString(|data|) + " matches"
  }

  /** `res.data.filter(i => i.type === 'audio')[0]`. */
  function FirstAudio(data: seq<Item>): (r: Option<Item>)
  {
    var am := AudioOf(data);
    if am == [] then None else Some(am[0])
  }

  /** The first audio item is the earliest audio item of the answer; there
      is none exactly when the answer has no audio. */
  lemma FirstAudioIsFirst(data: seq<Item>)
    ensures FirstAudio(data).None? <==> forall k :: 0 <= k < |data| ==> !IsAudio(data[k])
    ensures FirstAudio(data).Some? ==>
      exists i :: 0 <= i < |data| && data[i] == FirstAudio(data).value && IsAudio(data[i])
                  && forall j :: 0 <= j < i ==> !IsAudio(data[j])
  {
    if AudioOf(data) != [] {
      var i := FilterFirst(data, AudioTest());
      assert data[i] == FirstAudio(data).value;
    }
  }

  /** What `handleSearch` leaves behind in the state it writes. */
  datatype View = View(items: seq<Item>, isStoryMode: bool, status: string, currentTrack: Option<Item>, isPlaying: bool)

  /** The state after `handleSearch(val, isAuto)`: nothing changes for an
      automatic call while a query is typed; otherwise the status tells
      the outcome, an answer replaces the items and ends story mode, and
      its first audio item, if any, becomes the playing track. */
  function SearchOutcome(v: View, query: string, val: Option<string>, isAuto: bool, response: Option<seq<Item>>): View
  {
    if isAuto && query != "" then v
    else
      var cleanQ := CleanQuery(val, query);
      match response
      case None => v.(status := FinalStatus(cleanQ, response))
      case Some(data) =>
        var a := FirstAudio(data);
        View(data, false, FinalStatus(cleanQ, response),
             if a.Some? then a else v.currentTrack,
             if a.Some? then true else v.isPlaying)
  }

  /** The auto guard looks at the typed query, not at `val`; an answer
      without audio leaves the track and the play flag alone; an answer
      with audio always starts playing, whatever was playing before. */
  lemma SearchOutcomeShape(v: View, query: string, val: Option<string>, isAuto: bool, response: Option<seq<Item>>)
    ensures isAuto && query != "" ==> SearchOutcome(v, query, val, isAuto, response) == v
    ensures !(isAuto && query != "") && response.Some? ==>
      var w := SearchOutcome(v, query, val, isAuto, response);
      && w.items == response.value && !w.isStoryMode
      && ((forall k :: 0 <= k < |response.value| ==> !IsAudio(response.value[k]))
            ==> w.currentTrack == v.currentTrack && w.isPlaying == v.isPlaying)
      && ((exists k :: 0 <= k < |response.value| && IsAudio(response.value[k]))
            ==> w.isPlaying && w.currentTrack.Some? && IsAudio(w.currentTrack.value)
                && w.currentTrack.value in response.value)
    ensures !(isAuto && query != "") && response.None? ==>
      SearchOutcome(v, query, val, isAuto, response) == v.(status := "Recall Failed")
  {
    if response.Some? {
      FirstAudioIsFirst(response.value);
    }
  }

  /** The status reads "Restored"/"Syncing" for an empty query (after
      trimming) and "Found"/"Recalling" for any other. */
  lemma StatusTexts(val: Option<string>, query: string, n: nat)
    ensures var q := CleanQuery(val, query);
      && (q == "" ==> PendingStatus(q) == "Syncing latest scenes..."
                      && FinalStatus(q, Some(seq(n, _ => Placeholder()))) == "Restored " + NatToString(n) + " scenes")
      && (q != "" ==> StartsWith(PendingStatus(q), Brain)
                      && FinalStatus(q, Some(seq(n, _ => Placeholder()))) == "Found " + NatToString(n) + " matches")
  {
    var q := CleanQuery(val, query);
    if q != "" {
      assert PendingStatus(q)[..|Brain|] == Brain;
    }
  }

  function Placeholder(): Item
  {
    Item("", OtherKind, "", None, None, None, None, Undefined, Undefined, Undefined, None, None)
  }

  class SearchSession {
    var items: seq<Item>
    var query: string
    var threshold: real
    var status: string
    var isStoryMode: bool
    var currentTrack: Option<Item>
    var isPlaying: bool

    constructor ()
      ensures items == [] && query == "" && threshold == 0.15
      ensures status == "Standby" && !isStoryMode && currentTrack == None && !isPlaying
    {
      items, query, threshold := [], "", 0.15;
      status, isStoryMode, currentTrack, isPlaying := "Standby", false, None, false;
    }

    /** `handleSearch(val, isAuto)`. Returns the query sent to the server
        and the status shown while waiting, both `None` when the automatic
        call returns early. */
    method HandleSearch(val: Option<string>, isAuto: bool, response: Option<seq<Item>>)
      returns (sent: Option<string>, pending: Option<string>)
      modifies this
      ensures View(items, isStoryMode, status, currentTrack, isPlaying)
           == SearchOutcome(View(old(items), old(isStoryMode), old(status), old(currentTrack), old(isPlaying)),
                            old(query), val, isAuto, response)
      ensures query == old(query) && threshold == old(threshold)
      ensures sent.None? <==> isAuto && old(query) != ""
      ensures sent.Some? ==> sent.value == CleanQuery(val, old(query)) && pending == Some(PendingStatus(sent.value))
    {
      if isAuto && query != "" {
        return None, None;
      }
      var cleanQ := CleanQuery(val, query);
      status := PendingStatus(cleanQ);
      sent, pending := Some(cleanQ), Some(status);
      if response.Some? {
        var data := response.value;
        items := data;
        isStoryMode := false;
        var am := AudioOf(data);
        if |am| > 0 {
          currentTrack := Some(am[0]);
          isPlaying := true;
        }
        assert FirstAudio(data) == if |am| > 0 then Some(am[0]) else None;
      }
      status := FinalStatus(cleanQ, response);
    }
  }
}
