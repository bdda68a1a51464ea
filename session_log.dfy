/** The shape of one decoded line of a session log, and the per-turn text
    transformations of `import_logs`: flattening a list of content blocks,
    truncating long text, labelling the speaker and choosing the event time. */
module SessionLog {
  import opened Wrappers
  import opened Text

  /** One element of a list-shaped `content`. An object carries an optional
      `type` and an optional string `text` (None when the key is absent); any
      other JSON value is `NotObject`. */
  datatype Block = Object(kind: Option<string>, text: Option<string>) | NotObject

  /** `message.content`: a string, a list of blocks, or `Null`. `Null` stands for
      JSON null and for every other value that the length filter skips as it
      skips "": false, 0, an empty object, or an object of fewer than ten keys. */
  datatype Content = Plain(s: string) | Blocks(blocks: seq<Block>) | Null

  /** `message`: `role` and `content` are None when the key is absent. */
  datatype Message = Message(role: Option<string>, content: Option<Content>)

  /** The value of a `timestamp` key: a string; a list or object, for which
      `'T' in x` tests membership (`holdsT`); or any other value (null, a
      number, a boolean), for which `'T' in x` raises. */
  datatype Stamp = Str(s: string) | Collection(holdsT: bool) | Scalar

  /** One line after `json.loads`: either it failed, or an object whose
      `type`, `message` and `timestamp` keys may be absent. */
  datatype Entry =
    | Malformed
    | Decoded(kind: Option<string>, message: Option<Message>, timestamp: Option<Stamp>)

  /** `entry.get("type", "")` is "user" or "assistant". */
  predicate IsTurn(e: Entry) {
    e.Decoded? && (e.kind == Some("user") || e.kind == Some("assistant"))
  }

  /** `entry.get("message", {}).get("role", "")`. */
  function RoleOf(e: Entry): string {
    if e.Decoded? && e.message.Some? then e.message.value.role.GetOr("") else ""
  }

  /** A block that contributes to the flattened text: an object whose type is "text". */
  predicate IsTextBlock(b: Block) {
    b.Object? && b.kind == Some("text")
  }

  /** The `text` of every text block, in order; a text block without one gives "". */
  function TextsOf(blocks: seq<Block>): (texts: seq<string>)
    ensures |texts| <= |blocks|
    decreases |blocks|
  {
    if |blocks| == 0 then []
    else
      var last := blocks[|blocks| - 1];
      TextsOf(blocks[..|blocks| - 1]) + (if IsTextBlock(last) then [last.text.GetOr("")] else [])
  }

  /** The list form of `content` flattened to one string. */
  function Flatten(blocks: seq<Block>): string {
    Join(TextsOf(blocks), "\n")
  }

  /** The block loop of `import_logs`: collect the texts of the text blocks, then join them. */
  method FlattenBlocks(blocks: seq<Block>) returns (content: string)
    ensures content == Flatten(blocks)
  {
    var texts: seq<string> := [];
    var i := 0;
    while i < |blocks|
      invariant 0 <= i <= |blocks|
      invariant texts == TextsOf(blocks[..i])
    {
      var block := blocks[i];
      if block.Object? && block.kind == Some("text") {
        texts := texts + [block.text.GetOr("")];
      }
      assert blocks[..i + 1][..i] == blocks[..i];
      i := i + 1;
    }
    assert blocks[..i] == blocks;
    content := Join(texts, "\n");
  }

  /** Flattening distributes over concatenation of block lists. */
  lemma {:induction false} TextsOfAppend(a: seq<Block>, b: seq<Block>)
    ensures TextsOf(a + b) == TextsOf(a) + TextsOf(b)
    decreases |b|
  {
    if |b| == 0 {
      assert a + b == a;
    } else {
      var b' := b[..|b| - 1];
      assert (a + b)[..|a + b| - 1] == a + b';
      TextsOfAppend(a, b');
    }
  }

  /** A block that is not a text block contributes nothing, wherever it stands. */
  lemma OtherBlocksIgnored(before: seq<Block>, b: Block, after: seq<Block>)
    requires !IsTextBlock(b)
    ensures Flatten(before + [b] + after) == Flatten(before + after)
  {
    TextsOfAppend(before + [b], after);
    TextsOfAppend(before, [b]);
    TextsOfAppend(before, after);
    assert TextsOf([b]) == [] by {
      assert [b][..0] == [];
    }
    assert TextsOf(before + [b] + after) == TextsOf(before) + TextsOf(after);
  }

  /** Two text blocks around a tool block flatten to their texts joined by a newline. */
  lemma FlattenExample()
    ensures Flatten([Object(Some("text"), Some("a")), Object(Some("tool_use"), None), Object(Some("text"), Some("b"))]) == "a\nb"
  {
    var a, tool, b := Object(Some("text"), Some("a")), Object(Some("tool_use"), None), Object(Some("text"), Some("b"));
    assert [a, tool, b][..2] == [a, tool];
    assert [a, tool][..1] == [a];
    assert [a][..0] == [];
    assert TextsOf([a]) == ["a"];
    assert TextsOf([a, tool]) == ["a"];
    assert TextsOf([a, tool, b]) == ["a", "b"];
  }

  /** When no text holds a newline, splitting the flattened string on newlines
      gives back exactly the texts of the text blocks, in order. */
  lemma FlattenSplits(blocks: seq<Block>)
    requires TextsOf(blocks) != []
    requires forall k :: 0 <= k < |TextsOf(blocks)| ==> '\n' !in TextsOf(blocks)[k]
    ensures Split(Flatten(blocks), '\n') == TextsOf(blocks)
  {
    SplitJoin(TextsOf(blocks), '\n');
  }

  /** A text block without a `text` key still contributes a field, the empty one. */
  lemma TextBlockWithoutText(blocks: seq<Block>)
    ensures TextsOf(blocks + [Object(Some("text"), None)]) == TextsOf(blocks) + [""]
  {
    assert (blocks + [Object(Some("text"), None)])[..|blocks|] == blocks;
  }

  /** A list with no text block at all flattens to the empty string. */
  lemma {:induction false} NoTextBlocksFlattenEmpty(blocks: seq<Block>)
    requires forall k :: 0 <= k < |blocks| ==> !IsTextBlock(blocks[k])
    ensures Flatten(blocks) == ""
    ensures TextsOf(blocks) == []
    decreases |blocks|
  {
    if |blocks| > 0 {
      NoTextBlocksFlattenEmpty(blocks[..|blocks| - 1]);
    }
  }

  /** The text a message is judged on: a string as given, a block list
      flattened, and "" when `content` is absent or null (both are falsy, as ""
      is). */
  function MessageText(m: Message): string {
    match m.content
    case Some(Plain(s)) => s
    case Some(Blocks(bs)) => Flatten(bs)
    case Some(Null) => ""
    case None => ""
  }

  /** The text of a line's message; a missing `message` is `{}`, whose text is "". */
  function TurnText(e: Entry): string {
    if e.Decoded? && e.message.Some? then MessageText(e.message.value) else ""
  }

  /** Longest text kept whole. */
  const MaxChars := 2000
  const TruncationMarker := "... [truncated]"

  /** Long text is cut to its first `MaxChars` characters and marked. */
  function Truncate(content: string): (r: string)
    ensures |content| <= MaxChars ==> r == content
    ensures |content| > MaxChars ==> r == content[..MaxChars] + TruncationMarker
    ensures |r| <= MaxChars + |TruncationMarker|
  {
    if |content| > MaxChars then content[..MaxChars] + TruncationMarker else content
  }

  /** The kept text always begins with the original's first `MaxChars` characters
      (or all of it), so truncation never alters what it keeps. */
  lemma TruncateKeepsHead(content: string)
    ensures var n := if |content| < MaxChars then |content| else MaxChars;
            n <= |Truncate(content)| && Truncate(content)[..n] == content[..n]
  {
  }

  /** Truncating twice is truncating once. */
  lemma TruncateIdempotent(content: string)
    ensures Truncate(Truncate(content)) == Truncate(content)
  {
    if |content| > MaxChars {
      var t := Truncate(content);
      assert t[..MaxChars] == content[..MaxChars];
    }
  }

  const UserLabel := "[Ruth]: "
  const AssistantLabel := "[Vesper]: "

  /** The speaker label chosen by the message role (not the entry type). */
  function Label(role: string): string {
    if role == "user" then UserLabel else AssistantLabel
  }

  /** The text stored for a kept turn: the speaker label, then the (possibly truncated) text. */
  function MemoryBody(role: string, content: string): string {
    Label(role) + Truncate(content)
  }

  /** Reads a stored body back: whether it was a user turn, and the stored text. */
  function ParseBody(body: string): Option<(bool, string)> {
    if StartsWith(body, UserLabel) then Some((true, body[|UserLabel|..]))
    else if StartsWith(body, AssistantLabel) then Some((false, body[|AssistantLabel|..]))
    else None
  }

  /** The two labels cannot be confused: the stored body gives back the speaker
      and the stored text. */
  lemma BodyRoundTrip(role: string, content: string)
    ensures ParseBody(MemoryBody(role, content)) == Some((role == "user", Truncate(content)))
  {
    var body := MemoryBody(role, content);
    if role != "user" {
      assert body[1] == 'V';
      assert !StartsWith(body, UserLabel);
    }
    assert body[|Label(role)|..] == Truncate(content);
  }

  /** The event time handed to the store: a logged timestamp (with 'Z'
      rewritten to "+00:00") or the current time. */
  datatype EventTime = Logged(stamp: string) | Now

  /** `s.replace('Z', '+00:00')`. */
  function ReplaceZ(s: string): (r: string)
    ensures 'Z' !in r
    ensures forall c :: c in s && c != 'Z' ==> c in r
    ensures |r| >= |s|
    decreases |s|
  {
    if |s| == 0 then ""
    else (if s[0] == 'Z' then "+00:00" else [s[0]]) + ReplaceZ(s[1..])
  }

  /** The event-time argument of the store call, or None when computing it
      raises. `parses(iso)` says whether `datetime.fromisoformat` accepts `iso`.
      An absent key defaults to the current time's ISO form, which holds a 'T'
      and parses back, so it yields the current time. A string without 'T', or
      a list or object without the element 'T', also yields the current time. */
  function EventTimeOf(timestamp: Option<Stamp>, parses: string -> bool): (t: Option<EventTime>)
    ensures timestamp.None? ==> t == Some(Now)
    ensures t.Some? && t.value.Logged? <==>
            timestamp.Some? && timestamp.value.Str? && 'T' in timestamp.value.s && parses(ReplaceZ(timestamp.value.s))
    ensures t.Some? && t.value.Logged? ==> 'Z' !in t.value.stamp && 'T' in t.value.stamp && parses(t.value.stamp)
    ensures t.None? <==>
            timestamp == Some(Scalar) ||
            (timestamp.Some? && timestamp.value.Collection? && timestamp.value.holdsT) ||
            (timestamp.Some? && timestamp.value.Str? && 'T' in timestamp.value.s && !parses(ReplaceZ(timestamp.value.s)))
  {
    match timestamp
    case None => Some(Now)
    case Some(Str(ts)) =>
      if 'T' in ts then
        var iso := ReplaceZ(ts);
        if parses(iso) then Some(Logged(iso)) else None
      else Some(Now)
    case Some(Collection(holdsT)) => if holdsT then None else Some(Now)
    case Some(Scalar) => None
  }
}
