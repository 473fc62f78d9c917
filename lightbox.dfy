/** The full-screen viewer of `LightBox.jsx`: the optimistic tag list
    (untag and teach), the metadata fallback and the tiles it feeds, the
    path `seed` behind the decorative bars, and the prompt sent to the
    vision model.

    The requests are inputs: `requestOk` says whether the awaited call
    resolved. The date formatting and the stored system prompt are
    parameters too. */
module LightBox {
  import opened Common
  import opened Media

  // ---------------------------------------------------------------------
  // Tags

  /** `useState(item.identities || [])`. */
  function InitialTags(item: Item): (r: seq<string>)
    ensures item.identities.Some? ==> r == item.identities.value
    ensures item.identities.None? ==> r == []
  {
    match item.identities
    case Some(t) => t
    case None => []
  }

  /** The filter predicate `t => t !== name`. */
  function Other(name: string): string -> bool
  {
    t => t != name
  }

  /** After the optimistic removal no copy of the name is left and every
      other tag keeps all its copies, in order. */
  lemma UntagCounts(tags: seq<string>, name: string, t: string)
    ensures multiset(Filter(tags, Other(name)))[t] == if t == name then 0 else multiset(tags)[t]
  {
    FilterMultisetExact(tags, Other(name), t);
  }

  /** The revert appends the name once: the tag list gets back the
      multiset it had exactly when the name was there once before. A name
      tagged twice comes back once; a name not tagged at all is added. */
  lemma RevertRestoresOnlySingle(tags: seq<string>, name: string)
    ensures multiset(Filter(tags, Other(name)) + [name]) == multiset(tags)
        <==> multiset(tags)[name] == 1
  {
    var back := Filter(tags, Other(name)) + [name];
    UntagCounts(tags, name, name);
    if multiset(tags)[name] == 1 {
      forall t ensures multiset(back)[t] == multiset(tags)[t] {
        UntagCounts(tags, name, t);
      }
      MultisetEqual(multiset(back), multiset(tags));
    }
  }

  /** The teaching panel and its tag chips: not rendered for audio; the
      chips are the local tags. */
  function TeachPanel(item: Item, localTags: seq<string>): (chips: Option<seq<string>>)
    ensures chips.None? <==> IsAudio(item)
    ensures chips.Some? ==> chips.value == localTags
  {
    if IsAudio(item) then None else Some(localTags)
  }

  class LightBoxState {
    var localTags: seq<string>
    var teachInput: string
    var feedback: Option<string>

    constructor (item: Item)
      ensures localTags == InitialTags(item) && teachInput == "" && feedback == None
    {
      localTags := InitialTags(item);
      teachInput := "";
      feedback := None;
    }

    /** `handleUntag(name)`: the name leaves the list before the request;
        when the request fails it is appended at the end. */
    method Untag(name: string, requestOk: bool)
      modifies this
      ensures localTags == if requestOk then Filter(old(localTags), Other(name))
                           else Filter(old(localTags), Other(name)) + [name]
      ensures requestOk ==> name !in localTags
      ensures feedback == Some(if requestOk then "Removed " + name else "Error removing tag")
      ensures teachInput == old(teachInput)
    {
      localTags := Filter(localTags, Other(name));
      feedback := Some("Removing " + name + "...");
      if requestOk {
        feedback := Some("Removed " + name);
      } else {
        feedback := Some("Error removing tag");
        localTags := localTags + [name];
      }
    }

    /** `handleTeach(name)`: an empty name does nothing; otherwise, once the
        teach call resolves, the name is appended (even when already there)
        and the input is cleared. A rejected call leaves the list and the
        input as they were. */
    method Teach(name: string, requestOk: bool)
      modifies this
      ensures name == "" ==> localTags == old(localTags) && teachInput == old(teachInput) && feedback == old(feedback)
      ensures name != "" && requestOk ==>
        localTags == old(localTags) + [name] && teachInput == "" && feedback == Some("Learned " + name + "!")
      ensures name != "" && !requestOk ==>
        localTags == old(localTags) && teachInput == old(teachInput) && feedback == Some("Learning " + name + "...")
    {
      if name == "" {
        return;
      }
      feedback := Some("Learning " + name + "...");
      if !requestOk {
        return;
      }
      localTags := localTags + [name];
      teachInput := "";
      feedback := Some("Learned " + name + "!");
    }
  }

  // ---------------------------------------------------------------------
  // Metadata

  /** A JavaScript value shown in a tile; `Labelled(v, unit)` is the
      template string `${v}${unit}`. */
  datatype Val = Missing | Str(s: string) | Number(n: real) | Labelled(v: Val, unit: string)

  predicate Truthy(v: Val) {
    match v
    case Missing => false
    case Str(s) => s != ""
    case Number(n) => n != 0.0
    case Labelled(_, u) => true
  }

  /** The fields of the metadata object the tiles read. */
  datatype Meta = Meta(res: Val, sizeKb: Val, iso: Val, fNumber: Val)

  const NoMeta: Meta := Meta(Missing, Missing, Missing, Missing)

  /** `item.metadata`: a JSON string, an object, or a falsy value. */
  datatype Metadata = Text(text: string) | Object(meta: Meta) | Falsy

  /** `typeof m === 'string' ? JSON.parse(m) : m || {}` inside a `try`:
      `parse` answers `None` where `JSON.parse` throws. */
  function ParseMetadata(md: Metadata, parse: string -> Option<Meta>): (m: Meta)
  {
    match md
    case Text(s) => (match parse(s) case Some(v) => v case None => NoMeta)
    case Object(v) => v
    case Falsy => NoMeta
  }

  datatype Tile = Tile(caption: string, value: Val)

  /** A tile with a falsy value renders nothing. */
  function InfoTile(caption: string, value: Val): (r: seq<Tile>)
    ensures r == [] <==> !Truthy(value)
  {
    if Truthy(value) then [Tile(caption, value)] else []
  }

  /** `meta.size_kb ? `${meta.size_kb} KB` : null`. */
  function SizeLabel(kb: Val): Val
  {
    if Truthy(kb) then Labelled(kb, " KB") else Missing
  }

  /** The metadata grid, in its four slots. */
  function Tiles(m: Meta): seq<Tile>
  {
    InfoTile("DIMENSIONS", m.res) + InfoTile("SIZE", SizeLabel(m.sizeKb))
      + InfoTile("ISO", m.iso) + InfoTile("F-STOP", m.fNumber)
  }

  /** Every shown tile holds a truthy value; a slot is shown exactly when
      its value is truthy; missing or unparsable metadata shows no tile. */
  lemma TilesShape(md: Metadata, parse: string -> Option<Meta>)
    ensures var m := ParseMetadata(md, parse);
      && |Tiles(m)| <= 4
      && (forall k :: 0 <= k < |Tiles(m)| ==> Truthy(Tiles(m)[k].value))
      && (Tile("DIMENSIONS", m.res) in Tiles(m) <==> Truthy(m.res))
      && (Tile("ISO", m.iso) in Tiles(m) <==> Truthy(m.iso))
      && (Tile("F-STOP", m.fNumber) in Tiles(m) <==> Truthy(m.fNumber))
      && ((exists v :: Tile("SIZE", v) in Tiles(m)) <==> Truthy(m.sizeKb))
    ensures md.Falsy? || (md.Text? && parse(md.text).None?) ==> Tiles(ParseMetadata(md, parse)) == []
  {
    var m := ParseMetadata(md, parse);
    var t := Tiles(m);
    forall x | x in t ensures Truthy(x.value) && TileSlot(m, x) {
      TileMember(m, x);
    }
    forall k | 0 <= k < |t| ensures Truthy(t[k].value) {
      assert t[k] in t;
    }
    TileMember(m, Tile("DIMENSIONS", m.res));
    TileMember(m, Tile("ISO", m.iso));
    TileMember(m, Tile("F-STOP", m.fNumber));
    TileMember(m, Tile("SIZE", SizeLabel(m.sizeKb)));
  }

  /** The slot a tile can come from, told apart by its caption. */
  predicate TileSlot(m: Meta, x: Tile) {
    || x == Tile("DIMENSIONS", m.res)
    || x == Tile("SIZE", SizeLabel(m.sizeKb))
    || x == Tile("ISO", m.iso)
    || x == Tile("F-STOP", m.fNumber)
  }

  lemma TileMember(m: Meta, x: Tile)
    ensures x in Tiles(m) <==> TileSlot(m, x) && Truthy(x.value)
  {
    var a := InfoTile("DIMENSIONS", m.res);
    var b := InfoTile("SIZE", SizeLabel(m.sizeKb));
    var c := InfoTile("ISO", m.iso);
    var d := InfoTile("F-STOP", m.fNumber);
    assert Tiles(m) == a + b + c + d;
    assert x in Tiles(m) <==> x in a || x in b || x in c || x in d;
    if Truthy(SizeLabel(m.sizeKb)) {
      assert Truthy(m.sizeKb);
    }
  }

  // ---------------------------------------------------------------------
  // Seed and DNA bars

  /** `path.split('').reduce((acc, c) => acc + c.charCodeAt(0), 0)`. */
  function Seed(path: string): nat
  {
    if path == [] then 0 else Seed(path[..|path| - 1]) + (path[|path| - 1] as nat)
  }

  /** Taking one character out of the path takes its code out of the seed. */
  lemma {:induction false} SeedRemove(s: string, i: nat)
    requires i < |s|
    ensures Seed(s) == Seed(s[..i] + s[i + 1..]) + (s[i] as nat)
  {
    var n := |s| - 1;
    if i < n {
      var t := s[..n];
      SeedRemove(t, i);
      assert t[..i] + t[i + 1..] == (s[..i] + s[i + 1..])[..n - 1];
      assert (s[..i] + s[i + 1..])[n - 1] == s[n];
    } else {
      assert s[..i] + s[i + 1..] == s[..n];
    }
  }

  /** The seed depends on the characters of the path, not on their order. */
  lemma {:induction false} SeedPermutation(a: string, b: string)
    requires multiset(a) == multiset(b)
    ensures Seed(a) == Seed(b)
    decreases |a|
  {
    if a != [] {
      var n := |a| - 1;
      var c := a[n];
      assert a == a[..n] + [c];
      assert c in multiset(b);
      var i :| 0 <= i < |b| && b[i] == c;
      var rest := b[..i] + b[i + 1..];
      assert b == b[..i] + [c] + b[i + 1..];
      assert multiset(b) == multiset(rest) + multiset{c};
      assert multiset(a) == multiset(a[..n]) + multiset{c};
      forall x ensures multiset(rest)[x] == multiset(a[..n])[x] {
        assert multiset(b)[x] == multiset(rest)[x] + multiset{c}[x];
        assert multiset(a)[x] == multiset(a[..n])[x] + multiset{c}[x];
      }
      MultisetEqual(multiset(rest), multiset(a[..n]));
      SeedPermutation(a[..n], rest);
      SeedRemove(b, i);
    } else {
      assert b == [];
    }
  }

  /** The arguments of the 24 `sin` calls behind the bars (their sine is
      decoration): bar i turns with `seed * (i + 1)`. */
  function DnaPhases(seed: nat): (r: seq<nat>)
    ensures |r| == 24
  {
    seq(24, i requires 0 <= i < 24 => seed * (i + 1))
  }

  /** Two paths made of the same characters draw the same bars. */
  lemma DnaBarsPermutation(a: string, b: string)
    requires multiset(a) == multiset(b)
    ensures DnaPhases(Seed(a)) == DnaPhases(Seed(b))
  {
    SeedPermutation(a, b);
  }

  // ---------------------------------------------------------------------
  // The vision-model prompt

  const DefaultPrompt: string := "Describe this image in detail."
  const PeopleLead: string := "The people in this image are: "
  const DateLead: string := "This photo was taken on "

  /** `tags.join(', ')`. */
  function JoinNames(tags: seq<string>): string
  {
    if tags == [] then "" else if |tags| == 1 then tags[0] else tags[0] + ", " + JoinNames(tags[1..])
  }

  /** `needle` sits in `hay` at offset i. */
  predicate OccursAt(needle: string, hay: string, i: nat) {
    i + |needle| <= |hay| && hay[i..i + |needle|] == needle
  }

  /** Every tag is named in the join, at the offset returned. */
  lemma {:induction false} JoinNamesHolds(tags: seq<string>, k: nat) returns (i: nat)
    requires k < |tags|
    ensures OccursAt(tags[k], JoinNames(tags), i)
  {
    var j := JoinNames(tags);
    if k == 0 {
      i := 0;
    } else {
      var r := JoinNamesHolds(tags[1..], k - 1);
      var rest := JoinNames(tags[1..]);
      i := |tags[0]| + 2 + r;
      assert j == tags[0] + ", " + rest;
      assert j[i..i + |tags[k]|] == rest[r..r + |tags[k]|];
    }
  }

  /** `The people in this image are: ${tags.join(', ')}. `, added only
      when there are local tags. */
  function PeopleClause(localTags: seq<string>): string
  {
    if |localTags| > 0 then PeopleLead + JoinNames(localTags) + ". " else ""
  }

  /** `This photo was taken on ${date}. `, added only when `ts_inferred`
      is truthy. */
  function DateClause(tsInferred: JsNum, dateOf: real -> string): string
  {
    if TruthyNum(tsInferred) then DateLead + dateOf(tsInferred.value) + ". " else ""
  }

  /** The context of `handleAskAI`. */
  function AskContext(localTags: seq<string>, tsInferred: JsNum, dateOf: real -> string): string
  {
    PeopleClause(localTags) + DateClause(tsInferred, dateOf)
  }

  /** `localStorage.getItem(...) || default`. */
  function UserPrompt(stored: Option<string>): (r: string)
    ensures r != ""
  {
    if TruthyText(stored) then stored.value else DefaultPrompt
  }

  function FinalPrompt(context: string, userPrompt: string): string
  {
    context + "\n\n" + userPrompt
  }

  lemma StartsWithExtend(s: string, t: string, prefix: string)
    requires StartsWith(s, prefix)
    ensures StartsWith(s + t, prefix)
  {
    assert (s + t)[..|prefix|] == s[..|prefix|];
  }

  /** The prompt starts with the people clause exactly when there are
      local tags. */
  lemma PromptPeopleFirst(localTags: seq<string>, tsInferred: JsNum, dateOf: real -> string, u: string)
    ensures StartsWith(FinalPrompt(AskContext(localTags, tsInferred, dateOf), u), PeopleLead) <==> |localTags| > 0
  {
    var ctx := AskContext(localTags, tsInferred, dateOf);
    var p := FinalPrompt(ctx, u);
    assert p == (ctx + "\n\n") + u;
    if |localTags| > 0 {
      PromptWithPeople(localTags, tsInferred, dateOf, u);
      var j := JoinNames(localTags);
      assert (PeopleLead + j)[..|PeopleLead|] == PeopleLead;
      StartsWithExtend(PeopleLead + j, ". " + DateClause(tsInferred, dateOf) + "\n\n" + u, PeopleLead);
    } else if TruthyNum(tsInferred) {
      assert ctx == DateLead + (dateOf(tsInferred.value) + ". ");
      assert p[2] == ctx[2] == DateLead[2] != PeopleLead[2];
    } else {
      assert ctx == [];
      assert p[0] == '\n' != PeopleLead[0];
    }
  }

  /** Every local tag is named in the prompt. */
  lemma PromptNamesTags(localTags: seq<string>, tsInferred: JsNum, dateOf: real -> string, u: string, k: nat)
    requires k < |localTags|
    ensures IsSubstring(localTags[k], FinalPrompt(AskContext(localTags, tsInferred, dateOf), u))
  {
    var rest := ". " + DateClause(tsInferred, dateOf) + "\n\n" + u;
    PromptWithPeople(localTags, tsInferred, dateOf, u);
    var i := JoinNamesHolds(localTags, k);
    OccursInMiddle(localTags[k], PeopleLead, JoinNames(localTags), rest, i);
    IsSubstringAt(localTags[k], PeopleLead + JoinNames(localTags) + rest, |PeopleLead| + i);
  }

  /** With local tags, the prompt is the people lead, the joined names and
      the rest of the context and prompt. */
  lemma PromptWithPeople(localTags: seq<string>, tsInferred: JsNum, dateOf: real -> string, u: string)
    requires |localTags| > 0
    ensures FinalPrompt(AskContext(localTags, tsInferred, dateOf), u)
         == PeopleLead + JoinNames(localTags) + (". " + DateClause(tsInferred, dateOf) + "\n\n" + u)
  {
    var a := PeopleLead + JoinNames(localTags);
    var x := ". " + DateClause(tsInferred, dateOf);
    assert AskContext(localTags, tsInferred, dateOf) == a + ". " + DateClause(tsInferred, dateOf);
    ConcatAssoc(a, ". ", DateClause(tsInferred, dateOf));
    ConcatAssoc(a, x, "\n\n");
    ConcatAssoc(a, x + "\n\n", u);
  }

  lemma ConcatAssoc(a: string, b: string, c: string)
    ensures a + b + c == a + (b + c)
  {
  }

  /** An occurrence inside the middle part of a concatenation is an
      occurrence in the whole, shifted by the first part. */
  lemma OccursInMiddle(needle: string, a: string, b: string, c: string, i: nat)
    requires OccursAt(needle, b, i)
    ensures OccursAt(needle, a + b + c, |a| + i)
  {
    var w := a + b + c;
    assert w[|a|..|a| + |b|] == b;
    assert w[|a| + i..|a| + i + |needle|] == w[|a|..|a| + |b|][i..i + |needle|];
  }

  /** The prompt always ends with a blank line and the user prompt. */
  lemma PromptEndsWithUser(context: string, stored: Option<string>)
    ensures EndsWith(FinalPrompt(context, UserPrompt(stored)), "\n\n" + UserPrompt(stored))
    ensures |FinalPrompt(context, UserPrompt(stored))| > |context| + 2
  {
    var u := UserPrompt(stored);
    assert FinalPrompt(context, u) == context + ("\n\n" + u);
  }

  /** The vision request's state: the answer shown and the loading flag. */
  class AskState {
    var aiResponse: Option<string>
    var aiLoading: bool

    constructor ()
      ensures aiResponse == None && !aiLoading
    {
      aiResponse := None;
      aiLoading := false;
    }

    /** `handleAskAI`: sends the final prompt; shows the reply's `response`
        field, or "AI Brain Offline." when the request throws; loading ends
        in both cases. */
    method Ask(localTags: seq<string>, tsInferred: JsNum, dateOf: real -> string, stored: Option<string>,
               reply: Option<Option<string>>) returns (sent: string)
      modifies this
      ensures sent == FinalPrompt(AskContext(localTags, tsInferred, dateOf), UserPrompt(stored))
      ensures aiResponse == if reply.Some? then reply.value else Some("AI Brain Offline.")
      ensures !aiLoading
    {
      aiLoading := true;
      var userPrompt := UserPrompt(stored);
      var context := "";
      if |localTags| > 0 {
        context := context + PeopleClause(localTags);
      }
      assert context == PeopleClause(localTags);
      if TruthyNum(tsInferred) {
        context := context + DateClause(tsInferred, dateOf);
      } else {
        assert context == context + DateClause(tsInferred, dateOf);
      }
      sent := FinalPrompt(context, userPrompt);
      if reply.Some? {
        aiResponse := reply.value;
      } else {
        aiResponse := Some("AI Brain Offline.");
      }
      aiLoading := false;
    }
  }
}
