/** The chat overlay's emote segmentation (`parseMessageParts` in
    `ChatMessage.tsx`): a message and its emote spans become a run of text
    parts and emote parts. Spans are taken in ascending `startIndex` (a stable
    sort of a copy) and `endIndex` is inclusive. The message is a JavaScript
    string, so positions, `length` and `slice` count UTF-16 code units, and a
    character outside the Basic Multilingual Plane takes two positions. */
module ChatText {
  import opened Wrappers
  import opened Shared
  import Text
  import Sorting

  datatype Part = TextPart(text: Text.JsString) | EmotePart(emote: ChatEmote)

  function StartOf(e: ChatEmote): int {
    e.startIndex
  }

  /** The emotes of a run of parts, in order. */
  function EmotesOf(parts: seq<Part>): seq<ChatEmote>
    decreases |parts|
  {
    if parts == [] then []
    else (if parts[0].EmotePart? then [parts[0].emote] else []) + EmotesOf(parts[1..])
  }

  lemma {:induction false} EmotesOfAppend(a: seq<Part>, b: seq<Part>)
    ensures EmotesOf(a + b) == EmotesOf(a) + EmotesOf(b)
    decreases |a|
  {
    if a == [] {
      assert a + b == b;
    } else {
      assert (a + b)[0] == a[0] && (a + b)[1..] == a[1..] + b;
      EmotesOfAppend(a[1..], b);
    }
  }

  predicate NoEmptyText(parts: seq<Part>) {
    forall i :: 0 <= i < |parts| ==> parts[i] != TextPart([])
  }

  /** The text between the cursor and an emote, when there is any. */
  function Before(content: Text.JsString, e: ChatEmote, cursor: int): (r: seq<Part>)
  {
    if e.startIndex > cursor && Text.JsSlice(content, cursor, e.startIndex) != [] then
      [TextPart(Text.JsSlice(content, cursor, e.startIndex))]
    else []
  }

  /** The text after the last emote: `content.slice(cursor)` when the cursor
      is short of the end. */
  function Trailing(content: Text.JsString, cursor: int): (r: seq<Part>)
  {
    if cursor < |content| then [TextPart(Text.JsSlice(content, cursor, |content|))] else []
  }

  /** The gap text is one non-empty text part at most. */
  lemma BeforeShape(content: Text.JsString, e: ChatEmote, cursor: int)
    ensures var r := Before(content, e, cursor);
      NoEmptyText(r) && EmotesOf(r) == [] && |r| <= 1
  {
  }

  /** The trailing text is one text part at most, non-empty unless the
      message itself is empty. */
  lemma TrailingShape(content: Text.JsString, cursor: int)
    ensures var r := Trailing(content, cursor);
      (content != [] ==> NoEmptyText(r)) && EmotesOf(r) == [] && |r| <= 1
  {
  }

  /** The loop over the sorted spans, from `cursor` on. */
  function Segment(content: Text.JsString, emotes: seq<ChatEmote>, cursor: int): seq<Part>
    decreases |emotes|
  {
    if emotes == [] then Trailing(content, cursor)
    else
      var e := emotes[0];
      Before(content, e, cursor) + [EmotePart(e)] + Segment(content, emotes[1..], e.endIndex + 1)
  }

  /** The loop emits one emote part per span, in the order given. */
  lemma {:induction false} SegmentEmotes(content: Text.JsString, emotes: seq<ChatEmote>, cursor: int)
    ensures EmotesOf(Segment(content, emotes, cursor)) == emotes
    decreases |emotes|
  {
    if emotes == [] {
      TrailingShape(content, cursor);
    } else {
      var e := emotes[0];
      var before := Before(content, e, cursor);
      var rest := Segment(content, emotes[1..], e.endIndex + 1);
      BeforeShape(content, e, cursor);
      calc {
        EmotesOf(Segment(content, emotes, cursor));
        EmotesOf(before + [EmotePart(e)] + rest);
        { EmotesOfAppend(before + [EmotePart(e)], rest); }
        EmotesOf(before + [EmotePart(e)]) + EmotesOf(rest);
        { EmotesOfAppend(before, [EmotePart(e)]); }
        EmotesOf(before) + EmotesOf([EmotePart(e)]) + EmotesOf(rest);
        { EmotesOfOne(e); SegmentEmotes(content, emotes[1..], e.endIndex + 1); }
        [] + [e] + emotes[1..];
        { HeadTail(emotes); }
        emotes;
      }
    }
  }

  lemma EmotesOfOne(e: ChatEmote)
    ensures EmotesOf([EmotePart(e)]) == [e]
  {
    assert [EmotePart(e)][1..] == [];
  }

  lemma HeadTail<T>(s: seq<T>)
    requires s != []
    ensures [] + [s[0]] + s[1..] == s
  {
  }

  /** The loop never emits an empty text part for a non-empty message. */
  lemma {:induction false} SegmentNoEmpty(content: Text.JsString, emotes: seq<ChatEmote>, cursor: int)
    ensures content != [] ==> NoEmptyText(Segment(content, emotes, cursor))
    decreases |emotes|
  {
    if emotes == [] {
      TrailingShape(content, cursor);
    } else {
      var e := emotes[0];
      var before := Before(content, e, cursor);
      var rest := Segment(content, emotes[1..], e.endIndex + 1);
      BeforeShape(content, e, cursor);
      SegmentNoEmpty(content, emotes[1..], e.endIndex + 1);
      NoEmptyAppend(before, [EmotePart(e)]);
      NoEmptyAppend(before + [EmotePart(e)], rest);
    }
  }

  lemma NoEmptyAppend(a: seq<Part>, b: seq<Part>)
    requires NoEmptyText(a)
    ensures NoEmptyText(b) ==> NoEmptyText(a + b)
  {
    if NoEmptyText(b) {
      forall i | 0 <= i < |a + b| ensures (a + b)[i] != TextPart([]) {
        if i >= |a| {
          assert (a + b)[i] == b[i - |a|];
        }
      }
    }
  }

  /** `parseMessageParts`: without emotes, the whole content as one text
      part; otherwise one emote part per span in ascending start order, with
      the text around them, and never an empty text part. */
  function ParseMessageParts(content: Text.JsString, emotes: Option<seq<ChatEmote>>): (r: seq<Part>)
    ensures emotes.None? || emotes.value == [] ==> r == [TextPart(content)]
    ensures Sorting.SortedBy(EmotesOf(r), StartOf)
    ensures multiset(EmotesOf(r)) == multiset(emotes.GetOr([]))
    ensures content != [] ==> NoEmptyText(r)
  {
    var given := emotes.GetOr([]);
    if given == [] then
      assert EmotesOf([TextPart(content)]) == [];
      [TextPart(content)]
    else
      var sorted := Sorting.SortBy(given, StartOf);
      SegmentEmotes(content, sorted, 0);
      SegmentNoEmpty(content, sorted, 0);
      Segment(content, sorted, 0)
  }

  // --- The round trip --------------------------------------------------------

  /** The `ChatMessage` component parses the message's JavaScript string:
      the code units of its content. When the spans are in place, the parts
      show the message again. */
  function MessageParts(m: ChatMessagePayload): (r: seq<Part>)
    ensures Sorting.SortedBy(EmotesOf(r), StartOf)
    ensures m.emotes.Some? && WellPlaced(Text.Utf16(m.content), m.emotes.value) ==>
      Flatten(Text.Utf16(m.content), r) == Text.Utf16(m.content)
  {
    var units := Text.Utf16(m.content);
    var r := ParseMessageParts(units, m.emotes);
    if m.emotes.Some? && WellPlaced(units, m.emotes.value) then
      ParseRoundTrip(units, m.emotes.value);
      r
    else r
  }

  /** The text a run of parts shows, reading each emote's span back from the
      message. */
  function Flatten(content: Text.JsString, parts: seq<Part>): Text.JsString
    decreases |parts|
  {
    if parts == [] then [] else PartText(content, parts[0]) + Flatten(content, parts[1..])
  }

  /** What one part shows: its text, or the emote's span of the message. */
  function PartText(content: Text.JsString, p: Part): Text.JsString {
    match p
    case TextPart(t) => t
    case EmotePart(e) => Text.JsSlice(content, e.startIndex, e.endIndex + 1)
  }

  lemma {:induction false} FlattenAppend(content: Text.JsString, a: seq<Part>, b: seq<Part>)
    ensures Flatten(content, a + b) == Flatten(content, a) + Flatten(content, b)
    decreases |a|
  {
    if a == [] {
      assert a + b == b;
    } else {
      var x, fa, fb := PartText(content, a[0]), Flatten(content, a[1..]), Flatten(content, b);
      assert Flatten(content, a + b) == x + Flatten(content, a[1..] + b) by {
        assert (a + b)[0] == a[0] && (a + b)[1..] == a[1..] + b;
      }
      FlattenAppend(content, a[1..], b);
      assert x + (fa + fb) == (x + fa) + fb;
    }
  }

  /** Spans inside the message, each ending before the next one starts. */
  predicate WellPlaced(content: Text.JsString, emotes: seq<ChatEmote>) {
    && (forall k :: 0 <= k < |emotes| ==> 0 <= emotes[k].startIndex <= emotes[k].endIndex < |content|)
    && (forall k :: 0 <= k < |emotes| - 1 ==> emotes[k].endIndex < emotes[k + 1].startIndex)
  }

  lemma Split3<T>(s: seq<T>, i: nat, j: nat, k: nat)
    requires i <= j <= k <= |s|
    ensures s[i..] == s[i..j] + s[j..k] + s[k..]
  {
    assert s[i..] == s[i..j] + s[j..];
    assert s[j..] == s[j..k] + s[k..];
  }

  /** The text before an emote reads back the gap from the cursor. */
  lemma BeforeText(content: Text.JsString, e: ChatEmote, cursor: int)
    requires 0 <= cursor <= e.startIndex <= |content|
    ensures Flatten(content, Before(content, e, cursor)) == content[cursor..e.startIndex]
  {
    var before := Before(content, e, cursor);
    if before != [] {
      assert Flatten(content, before) == content[cursor..e.startIndex] + [];
    }
  }

  lemma EmoteText(content: Text.JsString, e: ChatEmote)
    requires 0 <= e.startIndex <= e.endIndex < |content|
    ensures Flatten(content, [EmotePart(e)]) == content[e.startIndex..e.endIndex + 1]
  {
    assert Flatten(content, [EmotePart(e)]) == content[e.startIndex..e.endIndex + 1] + [];
  }

  lemma TrailingText(content: Text.JsString, cursor: int)
    requires 0 <= cursor <= |content|
    ensures Flatten(content, Trailing(content, cursor)) == content[cursor..]
  {
    if cursor < |content| {
      TrailingPart(content, cursor);
      FlattenText(content, content[cursor..]);
    } else {
      assert content[cursor..] == [];
    }
  }

  lemma TrailingPart(content: Text.JsString, cursor: int)
    requires 0 <= cursor < |content|
    ensures Trailing(content, cursor) == [TextPart(content[cursor..])]
  {
    assert Text.JsSlice(content, cursor, |content|) == content[cursor..|content|] == content[cursor..];
  }

  lemma FlattenText(content: Text.JsString, t: Text.JsString)
    ensures Flatten(content, [TextPart(t)]) == t
  {
    assert [TextPart(t)][1..] == [];
    assert t + [] == t;
  }

  /** One span: the gap before it, the span and what follows read back
      the message from the cursor. */
  lemma SegmentStep(content: Text.JsString, emotes: seq<ChatEmote>, cursor: int)
    requires emotes != [] && WellPlaced(content, emotes)
    requires 0 <= cursor <= emotes[0].startIndex
    requires Flatten(content, Segment(content, emotes[1..], emotes[0].endIndex + 1)) == content[emotes[0].endIndex + 1..]
    ensures Flatten(content, Segment(content, emotes, cursor)) == content[cursor..]
  {
    var e := emotes[0];
    var before := Before(content, e, cursor);
    var rest := Segment(content, emotes[1..], e.endIndex + 1);
    SegmentUnfold(content, emotes, cursor);
    assert Flatten(content, before + [EmotePart(e)]) == content[cursor..e.startIndex] + content[e.startIndex..e.endIndex + 1] by {
      FlattenAppend(content, before, [EmotePart(e)]);
      BeforeText(content, e, cursor);
      EmoteText(content, e);
    }
    Split3(content, cursor, e.startIndex, e.endIndex + 1);
    FlattenAppend(content, before + [EmotePart(e)], rest);
  }

  lemma {:induction false} SegmentRoundTrip(content: Text.JsString, emotes: seq<ChatEmote>, cursor: int)
    requires WellPlaced(content, emotes)
    requires 0 <= cursor <= |content|
    requires emotes != [] ==> cursor <= emotes[0].startIndex
    ensures Flatten(content, Segment(content, emotes, cursor)) == content[cursor..]
    decreases |emotes|
  {
    if emotes == [] {
      TrailingText(content, cursor);
    } else {
      WellPlacedTail(content, emotes);
      SegmentRoundTrip(content, emotes[1..], emotes[0].endIndex + 1);
      SegmentStep(content, emotes, cursor);
    }
  }

  lemma WellPlacedTail(content: Text.JsString, emotes: seq<ChatEmote>)
    requires emotes != [] && WellPlaced(content, emotes)
    ensures WellPlaced(content, emotes[1..])
  {
    var rest := emotes[1..];
    forall k | 0 <= k < |rest| ensures rest[k] == emotes[k + 1] {
    }
  }

  /** Reading each emote back from its span restores the message exactly,
      when the spans are in order and inside it. */
  lemma ParseRoundTrip(content: Text.JsString, emotes: seq<ChatEmote>)
    requires WellPlaced(content, emotes)
    ensures Flatten(content, ParseMessageParts(content, Some(emotes))) == content
  {
    if emotes == [] {
      assert Flatten(content, [TextPart(content)]) == content + [];
    } else {
      assert Sorting.SortedBy(emotes, StartOf) by {
        forall i, j | 0 <= i < j < |emotes| ensures StartOf(emotes[i]) <= StartOf(emotes[j]) {
          InOrder(content, emotes, i, j);
        }
      }
      Sorting.SortBySorted(emotes, StartOf);
      SegmentRoundTrip(content, emotes, 0);
    }
  }

  lemma {:induction false} InOrder(content: Text.JsString, emotes: seq<ChatEmote>, i: nat, j: nat)
    requires WellPlaced(content, emotes) && i < j < |emotes|
    ensures emotes[i].startIndex < emotes[j].startIndex
    decreases j - i
  {
    if j > i + 1 {
      InOrder(content, emotes, i, j - 1);
    }
  }

  lemma SegmentUnfold(content: Text.JsString, emotes: seq<ChatEmote>, cursor: int)
    requires emotes != []
    ensures Segment(content, emotes, cursor)
         == Before(content, emotes[0], cursor) + [EmotePart(emotes[0])] + Segment(content, emotes[1..], emotes[0].endIndex + 1)
  {
  }

  /** The parts of a message with one emote spanning [start, end]. */
  lemma OneEmote(content: Text.JsString, e: ChatEmote)
    requires 0 < e.startIndex <= e.endIndex < |content| - 1
    ensures ParseMessageParts(content, Some([e]))
         == [TextPart(content[..e.startIndex]), EmotePart(e), TextPart(content[e.endIndex + 1..])]
  {
    SingleSorted(e);
    OneSegment(content, e);
  }

  lemma OneSegment(content: Text.JsString, e: ChatEmote)
    requires 0 < e.startIndex <= e.endIndex < |content| - 1
    ensures Segment(content, [e], 0)
         == [TextPart(content[..e.startIndex]), EmotePart(e), TextPart(content[e.endIndex + 1..])]
  {
    var h, t := TextPart(content[..e.startIndex]), TextPart(content[e.endIndex + 1..]);
    SegmentSingle(content, e, 0);
    HeadText(content, e);
    TrailingPart(content, e.endIndex + 1);
    Three(h, EmotePart(e), t);
  }

  lemma Three<T>(x: T, y: T, z: T)
    ensures [x] + [y] + [z] == [x, y, z]
  {
  }

  lemma SegmentSingle(content: Text.JsString, e: ChatEmote, cursor: int)
    ensures Segment(content, [e], cursor)
         == Before(content, e, cursor) + [EmotePart(e)] + Trailing(content, e.endIndex + 1)
  {
    assert [e][1..] == [];
  }

  lemma SingleSorted(e: ChatEmote)
    ensures Sorting.SortBy([e], StartOf) == [e]
  {
    Sorting.SortBySorted([e], StartOf);
  }

  lemma HeadText(content: Text.JsString, e: ChatEmote)
    requires 0 < e.startIndex <= |content|
    ensures Before(content, e, 0) == [TextPart(content[..e.startIndex])]
  {
    assert Text.JsSlice(content, 0, e.startIndex) == content[0..e.startIndex] == content[..e.startIndex];
  }

  /** The example in the component's comment: "kavali1Hype" spans 3..13, and
      the text around it is "GG " and " bien joué". The comment gives 15 as
      its end index; with 15 the trailing text loses " b". */
  lemma DocumentedExample(id: string, url: string, a: string, b: string, c: string)
    requires a == "GG " && b == "kavali1Hype" && c == " bien jou\U{E9}"
    ensures var content := Text.Utf16(a + b + c);
      var e := ChatEmote(id, "Twitch", b, 3, 13, url);
      var wide := ChatEmote(id, "Twitch", b, 3, 15, url);
      && |content| == 24 && content[3..14] == Text.Utf16(b)
      && ParseMessageParts(content, Some([e])) == [TextPart(Text.Utf16(a)), EmotePart(e), TextPart(Text.Utf16(c))]
      && ParseMessageParts(content, Some([wide])) == [TextPart(Text.Utf16(a)), EmotePart(wide), TextPart(Text.Utf16(c[2..]))]
  {
    var ua, ub, uc := Text.Utf16(a), Text.Utf16(b), Text.Utf16(c);
    ExampleUnits(a, b, c);
    Pieces3(ua, ub, uc);
    OneEmoteAt(ua, ub, uc, ChatEmote(id, "Twitch", b, 3, 13, url));
    assert c == c[..2] + c[2..];
    TailUnits(c[..2], c[2..]);
    OverlongSpan(ua, ub, uc, ChatEmote(id, "Twitch", b, 3, 15, url));
  }

  /** A span two units too long swallows the first two units of the suffix. */
  lemma OverlongSpan(a: Text.JsString, b: Text.JsString, c: Text.JsString, e: ChatEmote)
    requires |a| > 0 && |b| > 0 && |c| > 2
    requires e.startIndex == |a| && e.endIndex == |a| + |b| + 1
    ensures ParseMessageParts(a + b + c, Some([e])) == [TextPart(a), EmotePart(e), TextPart(c[2..])]
  {
    Regroup(a, b, c, 2);
    OneEmoteAt(a, b + c[..2], c[2..], e);
  }

  /** A message made of a prefix, one emote's span and a suffix. */
  lemma OneEmoteAt(a: Text.JsString, b: Text.JsString, c: Text.JsString, e: ChatEmote)
    requires |a| > 0 && |b| > 0 && |c| > 0
    requires e.startIndex == |a| && e.endIndex == |a| + |b| - 1
    ensures ParseMessageParts(a + b + c, Some([e])) == [TextPart(a), EmotePart(e), TextPart(c)]
  {
    Pieces3(a, b, c);
    OneEmote(a + b + c, e);
  }

  /** The example's message, in code units, is its three pieces one after
      another, each as long as its text. */
  lemma ExampleUnits(a: string, b: string, c: string)
    requires a == "GG " && b == "kavali1Hype" && c == " bien jou\U{E9}"
    ensures Text.Utf16(a + b + c) == Text.Utf16(a) + Text.Utf16(b) + Text.Utf16(c)
    ensures |Text.Utf16(a)| == 3 && |Text.Utf16(b)| == 11 && |Text.Utf16(c)| == 10
  {
    Text.Utf16Append(a, b);
    Text.Utf16Append(a + b, c);
    Text.Utf16Bmp(a);
    Text.Utf16Bmp(b);
    Text.Utf16Bmp(c);
  }

  /** Dropping a two-character BMP prefix drops two code units. */
  lemma TailUnits(p: string, q: string)
    requires |p| == 2 && Text.InBmp(p[0]) && Text.InBmp(p[1])
    ensures |Text.Utf16(p + q)| >= 2
    ensures Text.Utf16(p + q)[2..] == Text.Utf16(q)
  {
    Text.Utf16Append(p, q);
    Text.Utf16Bmp(p);
  }

  /** Positions count UTF-16 code units, so a character outside the Basic
      Multilingual Plane takes two of them: after an emoji, the span [2, 6]
      that covers "Kappa" when counted in characters starts at the space and
      leaves the last "a" as text. */
  lemma AstralShift(id: string, url: string)
    ensures var content := Text.Utf16("\U{1F600} Kappa");
      var e := ChatEmote(id, "Twitch", "Kappa", 2, 6, url);
      && |content| == 8
      && ParseMessageParts(content, Some([e]))
         == [TextPart(Text.Utf16("\U{1F600}")), EmotePart(e), TextPart(Text.Utf16("a"))]
  {
    var emoji, rest, head := "\U{1F600}", " Kappa", " Kapp";
    var content := Text.Utf16(emoji + rest);
    assert emoji + rest == "\U{1F600} Kappa";
    assert Text.Utf16(emoji) == Text.Utf16Char(emoji[0]) + Text.Utf16([]);
    Text.Utf16Append(emoji, rest);
    Text.Utf16Bmp(rest);
    Text.Utf16Bmp(head);
    assert rest == head + "a";
    Text.Utf16Append(head, "a");
    assert content[..2] == Text.Utf16(emoji);
    assert content[7..] == Text.Utf16(rest)[5..] == Text.Utf16("a");
    OneEmote(content, ChatEmote(id, "Twitch", "Kappa", 2, 6, url));
  }

  lemma Regroup<T>(a: seq<T>, b: seq<T>, c: seq<T>, k: nat)
    requires k <= |c|
    ensures a + b + c == a + (b + c[..k]) + c[k..]
  {
    assert c == c[..k] + c[k..];
  }

  /** The three pieces of a concatenation are its slices. */
  lemma Pieces3<T>(a: seq<T>, b: seq<T>, c: seq<T>)
    ensures var s := a + b + c;
      && s[..|a|] == a && s[|a|..|a| + |b|] == b && s[|a| + |b|..] == c
  {
  }
}
