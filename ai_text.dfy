/**
 * What the two generation functions share: JavaScript truthiness of optional strings, the
 * data-URL rule for images, the rules that cut the JSON array out of a model reply, and the
 * shapes of the gateway reply, the parse outcome and the response.
 */
module AiText {
  import opened Wrappers
  import opened Text

  /** A request or reply field that is present and is a non-empty string. */
  predicate Truthy(s: Option<string>) {
    s.Some? && s.value != []
  }

  const DataPrefix := "data:"
  const JpegDataPrefix := "data:image/jpeg;base64,"

  /** An image string that already is a data URL is kept; otherwise it is taken as raw base64
      JPEG data and prefixed. */
  function ImageDataUrl(image: string): (url: string)
    ensures StartsWith(url, DataPrefix)
    ensures StartsWith(image, DataPrefix) ==> url == image
    ensures !StartsWith(image, DataPrefix) ==> url == JpegDataPrefix + image
  {
    if StartsWith(image, DataPrefix) then image
    else
      assert (JpegDataPrefix + image)[..5] == DataPrefix;
      JpegDataPrefix + image
  }

  /** Prefixing is done at most once. */
  lemma ImageDataUrlIdempotent(image: string)
    ensures ImageDataUrl(ImageDataUrl(image)) == ImageDataUrl(image)
  {
  }

  const Fence := "```"
  const JsonFence := "```json"

  /** `s.replace(/<marker>\n?/g, '')`: every occurrence of `marker`, found left to right without
      overlap, is removed together with one newline right after it. */
  function StripMarker(s: string, marker: string): (r: string)
    requires marker != []
    ensures |r| <= |s|
    decreases |s|
  {
    if marker <= s then
      var rest := s[|marker|..];
      if rest != [] && rest[0] == '\n' then StripMarker(rest[1..], marker) else StripMarker(rest, marker)
    else if s == [] then []
    else [s[0]] + StripMarker(s[1..], marker)
  }

  /** The fence-stripped, trimmed reply text of quiz generation. */
  function CleanContent(content: string): string {
    Trim(StripMarker(StripMarker(content, JsonFence), Fence))
  }

  /** Three backticks start at position `i`. */
  predicate FenceAt(s: string, i: int)
    requires 0 <= i && i + 3 <= |s|
  {
    s[i] == '`' && s[i + 1] == '`' && s[i + 2] == '`'
  }

  predicate NoFence(s: string) {
    forall i :: 0 <= i <= |s| - 3 ==> !FenceAt(s, i)
  }

  /** Stripping keeps a first character that cannot begin a fence. */
  lemma StripKeepsFirst(s: string)
    requires s != [] && s[0] != '`'
    ensures StripMarker(s, Fence) != [] && StripMarker(s, Fence)[0] == s[0]
  {
    assert !(Fence <= s) by { assert Fence[0] == '`'; }
  }

  /** A kept backtick is never followed by two more after stripping. */
  lemma NoPairAfterKeptBacktick(s: string)
    requires s != [] && s[0] == '`' && !(Fence <= s)
    ensures var rt := StripMarker(s[1..], Fence); !(|rt| >= 2 && rt[0] == '`' && rt[1] == '`')
  {
    var t := s[1..];
    if t != [] && t[0] == '`' {
      if |s| >= 3 {
        assert s[2] != '`' by {
          assert Fence == [s[0], s[1], '`'];
          assert s[..3] == [s[0], s[1], s[2]];
        }
        assert !(Fence <= t) by { assert t[1] == s[2]; }
        assert StripMarker(t, Fence) == [t[0]] + StripMarker(t[1..], Fence);
        StripKeepsFirst(t[1..]);
      } else {
        assert !(Fence <= t);
        assert StripMarker(t, Fence) == [t[0]] + StripMarker(t[1..], Fence);
      }
    } else if t != [] {
      StripKeepsFirst(t);
    }
  }

  /** A character put in front of a fence-free text whose start cannot complete a fence with it. */
  lemma ConsNoFence(c: char, rt: string)
    requires NoFence(rt)
    requires c == '`' ==> !(|rt| >= 2 && rt[0] == '`' && rt[1] == '`')
    ensures NoFence([c] + rt)
  {
    var r := [c] + rt;
    forall i | 0 <= i <= |r| - 3
      ensures !FenceAt(r, i)
    {
      if i > 0 {
        assert !FenceAt(rt, i - 1);
        assert r[i] == rt[i - 1] && r[i + 1] == rt[i] && r[i + 2] == rt[i + 1];
      }
    }
  }

  /** After the global removal of "```" no fence is left in the text. */
  lemma {:induction false} StripLeavesNoFence(s: string)
    ensures NoFence(StripMarker(s, Fence))
    decreases |s|
  {
    if Fence <= s {
      var rest := s[3..];
      if rest != [] && rest[0] == '\n' {
        StripLeavesNoFence(rest[1..]);
      } else {
        StripLeavesNoFence(rest);
      }
    } else if s != [] {
      StripLeavesNoFence(s[1..]);
      if s[0] == '`' {
        NoPairAfterKeptBacktick(s);
      }
      ConsNoFence(s[0], StripMarker(s[1..], Fence));
    }
  }

  /** The cleaned quiz reply contains no code fence. */
  lemma CleanContentHasNoFence(content: string)
    ensures NoFence(CleanContent(content))
  {
    var stripped := StripMarker(StripMarker(content, JsonFence), Fence);
    StripLeavesNoFence(StripMarker(content, JsonFence));
    var r := Trim(stripped);
    var k := LeadCount(stripped);
    forall i | 0 <= i <= |r| - 3
      ensures !FenceAt(r, i)
    {
      assert !FenceAt(stripped, k + i);
      assert r[i] == stripped[k + i] && r[i + 1] == stripped[k + i + 1] && r[i + 2] == stripped[k + i + 2];
    }
  }

  predicate NoBacktick(s: string) {
    forall i :: 0 <= i < |s| ==> s[i] != '`'
  }

  /** A marker that begins with a backtick is never found in a text without one. */
  lemma {:induction false} StripWithoutBacktick(s: string, marker: string)
    requires marker != [] && marker[0] == '`' && NoBacktick(s)
    ensures StripMarker(s, marker) == s
    decreases |s|
  {
    if s != [] {
      assert !(marker <= s) by { assert s[0] != marker[0]; }
      StripWithoutBacktick(s[1..], marker);
    }
  }

  /** A reply without backticks is only trimmed. */
  lemma PlainContentOnlyTrimmed(content: string)
    requires NoBacktick(content)
    ensures CleanContent(content) == Trim(content)
  {
    StripWithoutBacktick(content, JsonFence);
    StripWithoutBacktick(content, Fence);
  }

  /** The text has a `[` somewhere before a `]`. */
  predicate HasBracketRegion(s: string) {
    exists i, j :: 0 <= i < j < |s| && s[i] == '[' && s[j] == ']'
  }

  function FirstIndexOf(s: string, c: char): (o: Option<nat>)
    ensures o.Some? ==> o.value < |s| && s[o.value] == c && forall k :: 0 <= k < o.value ==> s[k] != c
    ensures o.None? ==> forall k :: 0 <= k < |s| ==> s[k] != c
  {
    if s == [] then None
    else if s[0] == c then Some(0)
    else match FirstIndexOf(s[1..], c)
      case Some(i) => Some(i + 1)
      case None => None
  }

  function LastIndexOf(s: string, c: char): (o: Option<nat>)
    ensures o.Some? ==> o.value < |s| && s[o.value] == c && forall k :: o.value < k < |s| ==> s[k] != c
    ensures o.None? ==> forall k :: 0 <= k < |s| ==> s[k] != c
  {
    if s == [] then None
    else if s[|s| - 1] == c then Some(|s| - 1)
    else LastIndexOf(s[..|s| - 1], c)
  }

  /** Some `[` precedes some `]` exactly when the first `[` precedes the last `]`. */
  lemma BracketRegionFromIndices(s: string)
    ensures HasBracketRegion(s) <==>
      var first := FirstIndexOf(s, '['); var last := LastIndexOf(s, ']');
      first.Some? && last.Some? && first.value < last.value
  {
    if HasBracketRegion(s) {
      var i, j :| 0 <= i < j < |s| && s[i] == '[' && s[j] == ']';
      assert FirstIndexOf(s, '[').Some? && FirstIndexOf(s, '[').value <= i;
      assert LastIndexOf(s, ']').Some? && j <= LastIndexOf(s, ']').value;
    }
  }

  /** The match of the greedy `/\[[\s\S]*\]/`: from the first `[` to the last `]`, found
      exactly when some `[` precedes some `]`. */
  function BracketRegion(s: string): (o: Option<(nat, nat)>)
    ensures o.Some? <==> HasBracketRegion(s)
    ensures o.Some? ==>
      var (a, b) := o.value;
      && a < b < |s| && s[a] == '[' && s[b] == ']'
      && (forall k :: 0 <= k < a ==> s[k] != '[')
      && (forall k :: b < k < |s| ==> s[k] != ']')
  {
    BracketRegionFromIndices(s);
    var first := FirstIndexOf(s, '[');
    var last := LastIndexOf(s, ']');
    if first.Some? && last.Some? && first.value < last.value then Some((first.value, last.value)) else None
  }

  /** The text handed to JSON.parse: the bracket region when there is one, else everything. */
  function ExtractArrayText(s: string): (r: string)
    ensures !HasBracketRegion(s) ==> r == s
    ensures HasBracketRegion(s) ==> |r| >= 2 && r[0] == '[' && r[|r| - 1] == ']' && |r| <= |s|
  {
    match BracketRegion(s)
    case Some((a, b)) => s[a..b + 1]
    case None => s
  }

  /** Extraction finds nothing more to cut in its own result. */
  lemma ExtractArrayTextIdempotent(s: string)
    ensures ExtractArrayText(ExtractArrayText(s)) == ExtractArrayText(s)
  {
    var r := ExtractArrayText(s);
    if HasBracketRegion(s) {
      assert r[0] == '[' && r[|r| - 1] == ']';
      assert HasBracketRegion(r);
      var (a, b) := BracketRegion(r).value;
      assert a == 0;
      assert b == |r| - 1;
      assert r[0..|r|] == r;
    }
  }

  /** Who a chat message comes from. */
  datatype Role = System | User

  /** One chat message of the gateway request: its role, which prompt it carries (with the
      values inserted into the prompt's text), and the image attached to it. */
  datatype Message<P> = Message(role: Role, prompt: P, imageUrl: Option<string>)

  /** The gateway's answer: the HTTP status and `choices[0].message.content` of its body. */
  datatype GatewayReply = GatewayReply(status: int, content: Option<string>) {
    predicate Ok() {
      200 <= status <= 299
    }
  }

  /** What JSON.parse makes of the extracted text. */
  datatype Parsed<T> = Unparseable | NotAnArray | Entries(entries: seq<T>)

  /** A JSON response of a generation function. */
  datatype Body<T> = ErrorBody(error: string) | Payload(items: seq<T>)
  datatype Reply<T> = Reply(status: int, body: Body<T>)
}
