/** The local language-model client of `app/ollama_engine.py`: the model
    list read from `/api/tags`, the first-match heuristics that pick a
    vision model and a chat model, `set_model`, and the guards in front of
    `chat` and `describe`. The HTTP exchanges are inputs: `TagsReply` is
    what `/api/tags` answered, `Reply` what a chat or generate call
    answered. */
module Ollama {
  import opened Common

  const VisionKeys: seq<string> := ["llava", "vision", "minicpm"]
  const ChatKeys: seq<string> := ["llama3", "mistral", "gemma", "qwen"]
  const NotAvailable: string := "Ollama not available."
  const NoVisionModel: string := "Vision model not found."

  /** The answer of `GET /api/tags`: no answer at all (the request
      raised), or a status code with the model names when the body has the
      expected shape (`None` when reading it raises). */
  datatype TagsReply = Unreachable | Status(code: int, names: Option<seq<string>>)

  /** The answer of a chat or generate request: its text, or the message of
      the exception raised while sending it or reading the reply. */
  datatype Reply = Answer(text: string) | Failure(error: string)

  /** `k1 in m or k2 in m or ...`: one of the keys is a substring of `m`. */
  predicate MentionsAny(m: string, keys: seq<string>) {
    exists k :: 0 <= k < |keys| && IsSubstring(keys[k], m)
  }

  /** The first name mentioning one of the keys. */
  function FirstMatching(names: seq<string>, keys: seq<string>): (r: Option<string>)
    ensures r.Some? ==> r.value in names && MentionsAny(r.value, keys)
  {
    if names == [] then None
    else if MentionsAny(names[0], keys) then Some(names[0])
    else FirstMatching(names[1..], keys)
  }

  /** `FirstMatching` finds a name exactly when some name matches, and
      the one it finds comes before every other match. */
  lemma {:induction false} FirstMatchingIsFirst(names: seq<string>, keys: seq<string>)
    ensures FirstMatching(names, keys).None? <==> forall i :: 0 <= i < |names| ==> !MentionsAny(names[i], keys)
    ensures FirstMatching(names, keys).Some? ==>
      exists i :: 0 <= i < |names| && names[i] == FirstMatching(names, keys).value
                  && forall j :: 0 <= j < i ==> !MentionsAny(names[j], keys)
  {
    if names != [] && !MentionsAny(names[0], keys) {
      FirstMatchingIsFirst(names[1..], keys);
      var rest := FirstMatching(names[1..], keys);
      if rest.Some? {
        var i :| 0 <= i < |names[1..]| && names[1..][i] == rest.value
                 && forall j :: 0 <= j < i ==> !MentionsAny(names[1..][j], keys);
        assert names[i + 1] == rest.value;
        forall j | 0 <= j < i + 1 ensures !MentionsAny(names[j], keys) {
          if j > 0 {
            assert names[j] == names[1..][j - 1];
          }
        }
      } else {
        forall i | 0 <= i < |names| ensures !MentionsAny(names[i], keys) {
          if i > 0 {
            assert names[i] == names[1..][i - 1];
          }
        }
      }
    }
  }

  /** The chat model a successful scan leaves: the first chat-like name,
      else the previous value, else (when that is falsy) the first model. */
  function ChatChoice(names: seq<string>, previous: Option<string>): Option<string>
  {
    var c := match FirstMatching(names, ChatKeys) case Some(m) => Some(m) case None => previous;
    if !TruthyText(c) && names != [] then Some(names[0]) else c
  }

  /** The vision model a successful scan leaves: the first vision-like
      name, else the previous value, else (when that is falsy) the chat
      model. */
  function VisionChoice(names: seq<string>, previousVision: Option<string>, previousChat: Option<string>): Option<string>
  {
    var v := match FirstMatching(names, VisionKeys) case Some(m) => Some(m) case None => previousVision;
    if !TruthyText(v) then ChatChoice(names, previousChat) else v
  }

  /** On a first scan: with no vision-like name the vision model is the
      chat model; a non-empty list always yields a chat model; an empty
      list leaves both unset. */
  lemma FirstScanChoices(names: seq<string>)
    ensures FirstMatching(names, VisionKeys).None? ==> VisionChoice(names, None, None) == ChatChoice(names, None)
    ensures names != [] ==> ChatChoice(names, None).Some?
    ensures names == [] ==> ChatChoice(names, None) == None && VisionChoice(names, None, None) == None
    ensures FirstMatching(names, ChatKeys).None? && names != [] ==> ChatChoice(names, None) == Some(names[0])
  {
  }

  class OllamaEngine {
    const baseUrl: string
    var models: seq<string>
    var visionModel: Option<string>
    var chatModel: Option<string>
    var available: bool

    /** `__init__`: everything unset, then one scan. */
    constructor (baseUrl: string, tags: TagsReply)
      ensures this.baseUrl == baseUrl
      ensures tags.Status? && tags.code == 200 && tags.names.Some? ==>
        && models == tags.names.value
        && chatModel == ChatChoice(models, None)
        && visionModel == VisionChoice(models, None, None)
        && available
      ensures !(tags.Status? && tags.code == 200 && tags.names.Some?) ==>
        models == [] && chatModel == None && visionModel == None && !available
    {
      this.baseUrl := baseUrl;
      models, visionModel, chatModel, available := [], None, None, false;
      new;
      ScanModels(tags);
    }

    /** The first-match loop with `break`. */
    static method FirstMatchLoop(names: seq<string>, keys: seq<string>) returns (found: Option<string>)
      ensures found == FirstMatching(names, keys)
    {
      for i := 0 to |names|
        invariant FirstMatching(names, keys) == FirstMatching(names[i..], keys)
      {
        assert names[i..][1..] == names[i + 1..];
        if MentionsAny(names[i], keys) {
          return Some(names[i]);
        }
      }
      return None;
    }

    /** `scan_models()`: on a 200 answer the model list is replaced and
        both models are chosen; any other outcome changes nothing. The
        models chosen by an earlier scan survive when no name matches. */
    method ScanModels(tags: TagsReply)
      modifies this
      ensures tags.Status? && tags.code == 200 && tags.names.Some? ==>
        && models == tags.names.value
        && chatModel == ChatChoice(models, old(chatModel))
        && visionModel == VisionChoice(models, old(visionModel), old(chatModel))
        && available
      ensures !(tags.Status? && tags.code == 200 && tags.names.Some?) ==>
        models == old(models) && chatModel == old(chatModel) && visionModel == old(visionModel)
        && available == old(available)
    {
      if tags.Unreachable? || tags.code != 200 || tags.names.None? {
        return;
      }
      models := tags.names.value;
      var v := FirstMatchLoop(models, VisionKeys);
      if v.Some? {
        visionModel := v;
      }
      var c := FirstMatchLoop(models, ChatKeys);
      if c.Some? {
        chatModel := c;
      }
      if !TruthyText(chatModel) && models != [] {
        chatModel := Some(models[0]);
      }
      if !TruthyText(visionModel) {
        visionModel := chatModel;
      }
      available := true;
    }

    /** `set_model(type, name)`: refused for an unknown name; "chat" and
        "vision" set their own field; any other type is accepted and
        changes nothing. */
    method SetModel(kind: string, name: string) returns (ok: bool)
      modifies this
      ensures ok <==> name in models
      ensures models == old(models) && available == old(available)
      ensures chatModel == if ok && kind == "chat" then Some(name) else old(chatModel)
      ensures visionModel == if ok && kind == "vision" then Some(name) else old(visionModel)
    {
      if name !in models {
        return false;
      }
      if kind == "chat" {
        chatModel := Some(name);
      } else if kind == "vision" {
        visionModel := Some(name);
      }
      return true;
    }

    /** `chat(messages)`: the fixed refusal when the engine is unavailable
        or has no chat model; otherwise the reply text or the error. */
    method Chat(reply: Reply) returns (answer: string)
      ensures !available || !TruthyText(chatModel) ==> answer == NotAvailable
      ensures available && TruthyText(chatModel) ==>
        answer == match reply case Answer(t) => t case Failure(e) => "Brain Error: " + e
    {
      if !available || !TruthyText(chatModel) {
        return NotAvailable;
      }
      match reply
      case Answer(t) => answer := t;
      case Failure(e) => answer := "Brain Error: " + e;
    }

    /** `describe(image_path, prompt)`: the fixed refusal when the engine is
        unavailable or has no vision model; otherwise the reply text or the
        error. */
    method Describe(reply: Reply) returns (answer: string)
      ensures !available || !TruthyText(visionModel) ==> answer == NoVisionModel
      ensures available && TruthyText(visionModel) ==>
        answer == match reply case Answer(t) => t case Failure(e) => "Vision Error: " + e
    {
      if !available || !TruthyText(visionModel) {
        return NoVisionModel;
      }
      match reply
      case Answer(t) => answer := t;
      case Failure(e) => answer := "Vision Error: " + e;
    }
  }
}
