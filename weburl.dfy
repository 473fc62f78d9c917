/** The URL the client builds for a file served from `/raw`:
    `${apiBase}/raw/${displayPath.split('/').map(encodeURIComponent).join('/')}`,
    used alike by GalaxyView, GridView, Inspector and RightPanel. */
module WebUrl {
  import opened Common

  // ---------------------------------------------------------------------
  // `String.prototype.split` and `Array.prototype.join` on one character

  function Split(s: string, c: char): (r: seq<string>)
    ensures |r| >= 1
    ensures forall k :: 0 <= k < |r| ==> c !in r[k]
  {
    if s == [] then [""]
    else
      var rest := Split(s[1..], c);
      if s[0] == c then [""] + rest
      else [[s[0]] + rest[0]] + rest[1..]
  }

  function Join(segs: seq<string>, c: char): string
  {
    if segs == [] then ""
    else if |segs| == 1 then segs[0]
    else segs[0] + [c] + Join(segs[1..], c)
  }

  /** Joining the pieces of a split gives the string back. */
  lemma {:induction false} JoinSplit(s: string, c: char)
    ensures Join(Split(s, c), c) == s
  {
    if s != [] {
      var rest := Split(s[1..], c);
      JoinSplit(s[1..], c);
      if s[0] == c {
        assert Join([""] + rest, c) == "" + [c] + Join(rest, c) by {
          assert ([""] + rest)[1..] == rest;
        }
        assert s == [s[0]] + s[1..];
      } else {
        JoinGlued(s[0], rest, c);
        assert s == [s[0]] + s[1..];
      }
    }
  }

  /** Gluing a character onto the first piece puts it in front of the join. */
  lemma JoinGlued(x: char, segs: seq<string>, c: char)
    requires |segs| >= 1
    ensures Join([[x] + segs[0]] + segs[1..], c) == [x] + Join(segs, c)
  {
    var r := [[x] + segs[0]] + segs[1..];
    if |segs| > 1 {
      var j := Join(segs[1..], c);
      assert r[1..] == segs[1..];
      assert Join(r, c) == ([x] + segs[0]) + [c] + j;
      assert Join(segs, c) == segs[0] + [c] + j;
      assert ([x] + segs[0]) + [c] + j == [x] + (segs[0] + [c] + j);
    }
  }

  lemma {:induction false} SplitPlain(x: string, c: char)
    requires c !in x
    ensures Split(x, c) == [x]
  {
    if x != [] {
      SplitPlain(x[1..], c);
      assert x == [x[0]] + x[1..];
    }
  }

  lemma {:induction false} SplitAfterPlain(x: string, t: string, c: char)
    requires c !in x
    ensures Split(x + [c] + t, c) == [x] + Split(t, c)
  {
    if x == [] {
      assert x + [c] + t == [c] + t;
      assert ([c] + t)[1..] == t;
    } else {
      SplitAfterPlain(x[1..], t, c);
      assert (x + [c] + t)[1..] == x[1..] + [c] + t;
      assert x == [x[0]] + x[1..];
    }
  }

  /** Splitting the join of separator-free pieces gives the pieces back. */
  lemma {:induction false} SplitJoin(segs: seq<string>, c: char)
    requires |segs| >= 1
    requires forall k :: 0 <= k < |segs| ==> c !in segs[k]
    ensures Split(Join(segs, c), c) == segs
  {
    if |segs| == 1 {
      SplitPlain(segs[0], c);
    } else {
      SplitJoin(segs[1..], c);
      SplitAfterPlain(segs[0], Join(segs[1..], c), c);
      assert segs == [segs[0]] + segs[1..];
    }
  }

  // ---------------------------------------------------------------------
  // `encodeURIComponent`

  /** The characters `encodeURIComponent` leaves as they are. */
  predicate Unreserved(c: char) {
    ('A' <= c <= 'Z') || ('a' <= c <= 'z') || ('0' <= c <= '9')
    || c == '-' || c == '_' || c == '.' || c == '!' || c == '~'
    || c == '*' || c == '\'' || c == '(' || c == ')'
  }

  predicate UpperHex(c: char) {
    ('0' <= c <= '9') || ('A' <= c <= 'F')
  }

  function HexDigit(d: nat): (c: char)
    requires d < 16
    ensures UpperHex(c)
  {
    "0123456789ABCDEF"[d]
  }

  /** The UTF-8 encoding of one Unicode scalar value. */
  function Utf8(c: char): (r: seq<nat>)
    ensures 1 <= |r| <= 4
    ensures forall k :: 0 <= k < |r| ==> r[k] < 256
    ensures (c as int < 0x80) <==> |r| == 1
  {
    var n := c as int;
    if n < 0x80 then [n]
    else if n < 0x800 then [0xC0 + n / 64, 0x80 + n % 64]
    else if n < 0x10000 then [0xE0 + n / 4096, 0x80 + (n / 64) % 64, 0x80 + n % 64]
    else [0xF0 + n / 262144, 0x80 + (n / 4096) % 64, 0x80 + (n / 64) % 64, 0x80 + n % 64]
  }

  function PercentBytes(bytes: seq<nat>): (r: string)
    requires forall k :: 0 <= k < |bytes| ==> bytes[k] < 256
    ensures |r| == 3 * |bytes|
    ensures forall ch :: ch in r ==> ch == '%' || UpperHex(ch)
  {
    if bytes == [] then ""
    else ['%', HexDigit(bytes[0] / 16), HexDigit(bytes[0] % 16)] + PercentBytes(bytes[1..])
  }

  function EncodeChar(c: char): (r: string)
    ensures forall ch :: ch in r ==> Unreserved(ch) || ch == '%' || UpperHex(ch)
    ensures Unreserved(c) ==> r == [c]
  {
    if Unreserved(c) then [c] else PercentBytes(Utf8(c))
  }

  /** `encodeURIComponent(s)`. The output is made of unreserved characters
      and `%XX` escapes only, so in particular it holds no '/'. */
  function EncodeComponent(s: string): (r: string)
    ensures forall ch :: ch in r ==> Unreserved(ch) || ch == '%' || UpperHex(ch)
    ensures '/' !in r
  {
    if s == [] then "" else EncodeChar(s[0]) + EncodeComponent(s[1..])
  }

  /** A segment made of unreserved characters only is left as it is. */
  lemma {:induction false} EncodePlain(s: string)
    requires forall k :: 0 <= k < |s| ==> Unreserved(s[k])
    ensures EncodeComponent(s) == s
  {
    if s != [] {
      EncodePlain(s[1..]);
      assert s == [s[0]] + s[1..];
    }
  }

  function EncodeAll(segs: seq<string>): (r: seq<string>)
    ensures |r| == |segs|
    ensures forall k :: 0 <= k < |segs| ==> r[k] == EncodeComponent(segs[k])
  {
    seq(|segs|, k requires 0 <= k < |segs| => EncodeComponent(segs[k]))
  }

  /** `path.split('/').map(encodeURIComponent).join('/')`. */
  function EncodePath(path: string): string
  {
    Join(EncodeAll(Split(path, '/')), '/')
  }

  /** The separators survive: the encoded path splits on '/' into exactly the
      encoded segments of the original path, one for one. */
  lemma EncodePathKeepsSegments(path: string)
    ensures Split(EncodePath(path), '/') == EncodeAll(Split(path, '/'))
  {
    SplitJoin(EncodeAll(Split(path, '/')), '/');
  }

  /** `${apiBase}/raw/${encoded display path}`. */
  function RawUrl(apiBase: string, displayPath: string): string
  {
    apiBase + "/raw/" + EncodePath(displayPath)
  }

  /** GalaxyView and GridView: the thumbnail URL when the item has a thumbnail
      (a non-empty `thumb`), else the raw file URL. */
  function ThumbOrRawUrl(apiBase: string, thumb: Option<string>, displayPath: string): (r: string)
    ensures TruthyText(thumb) ==> r == apiBase + thumb.value
    ensures !TruthyText(thumb) ==> r == RawUrl(apiBase, displayPath)
  {
    if TruthyText(thumb) then apiBase + thumb.value else RawUrl(apiBase, displayPath)
  }
}
