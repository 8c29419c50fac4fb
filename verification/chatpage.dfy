/** The chat overlay's message list (`ChatPage.tsx`): each chat message is
    appended and only the 30 most recent are kept; a clear empties the list. */
module ChatPage {
  import opened Shared

  const MaxMessages := 30

  /** `list.slice(-MAX_MESSAGES)`: the last 30 entries, or all of them. */
  function KeepRecent(list: seq<ChatMessagePayload>): (r: seq<ChatMessagePayload>)
    ensures |r| == if |list| < MaxMessages then |list| else MaxMessages
    ensures r == list[|list| - |r|..]
  {
    if |list| > MaxMessages then list[|list| - MaxMessages..] else list
  }

  /** `handleEvent`: append-and-trim on a chat message, empty on a clear,
      nothing otherwise. */
  function HandleEvent(messages: seq<ChatMessagePayload>, f: Frame): (r: seq<ChatMessagePayload>)
    ensures |r| <= MaxMessages || r == messages
    ensures f == Event(ChatClear) ==> r == []
    ensures f.Event? && f.event.ChatMessage? ==>
      && |r| == (if |messages| + 1 < MaxMessages then |messages| + 1 else MaxMessages)
      && r[|r| - 1] == f.event.chat
      && r[..|r| - 1] == messages[|messages| + 1 - |r|..]
    ensures !(f.Event? && (f.event.ChatMessage? || f.event.ChatClear?)) ==> r == messages
  {
    if !f.Event? then messages
    else match f.event
      case ChatMessage(p) => KeepRecent(messages + [p])
      case ChatClear => []
      case _ => messages
  }

  function HandleAll(messages: seq<ChatMessagePayload>, frames: seq<Frame>): seq<ChatMessagePayload>
    decreases |frames|
  {
    if frames == [] then messages else HandleAll(HandleEvent(messages, frames[0]), frames[1..])
  }

  /** The chat messages that arrived after the last clear, oldest first. */
  function SinceClear(frames: seq<Frame>): seq<ChatMessagePayload>
    decreases |frames|
  {
    if frames == [] then []
    else
      var last := frames[|frames| - 1];
      var before := SinceClear(frames[..|frames| - 1]);
      if last == Event(ChatClear) then []
      else if last.Event? && last.event.ChatMessage? then before + [last.event.chat]
      else before
  }

  lemma KeepRecentTwice(list: seq<ChatMessagePayload>, p: ChatMessagePayload)
    ensures KeepRecent(KeepRecent(list) + [p]) == KeepRecent(list + [p])
  {
    var k := KeepRecent(list);
    if |list| > MaxMessages {
      assert (list + [p])[|list| + 1 - MaxMessages..] == k[1..] + [p];
    }
  }

  /** From an empty page, the list is always the 30 most recent messages
      since the last clear, in arrival order. */
  lemma {:induction false} ShowsRecentSinceClear(frames: seq<Frame>)
    ensures HandleAll([], frames) == KeepRecent(SinceClear(frames))
    decreases |frames|
  {
    if frames != [] {
      var init := frames[..|frames| - 1];
      var last := frames[|frames| - 1];
      ShowsRecentSinceClear(init);
      assert frames == init + [last];
      HandleAllSnoc([], init, last);
      var shown := KeepRecent(SinceClear(init));
      assert HandleAll([], frames) == HandleEvent(shown, last);
      if last == Event(ChatClear) {
        assert SinceClear(frames) == [];
      } else if last.Event? && last.event.ChatMessage? {
        assert SinceClear(frames) == SinceClear(init) + [last.event.chat];
        assert HandleEvent(shown, last) == KeepRecent(shown + [last.event.chat]);
        KeepRecentTwice(SinceClear(init), last.event.chat);
      } else {
        assert SinceClear(frames) == SinceClear(init);
        assert HandleEvent(shown, last) == shown;
      }
    }
  }

  lemma {:induction false} HandleAllSnoc(messages: seq<ChatMessagePayload>, frames: seq<Frame>, f: Frame)
    ensures HandleAll(messages, frames + [f]) == HandleEvent(HandleAll(messages, frames), f)
    decreases |frames|
  {
    if frames == [] {
      assert frames + [f] == [f];
    } else {
      assert (frames + [f])[0] == frames[0] && (frames + [f])[1..] == frames[1..] + [f];
      HandleAllSnoc(HandleEvent(messages, frames[0]), frames[1..], f);
    }
  }

  /** Thirty-one messages in a row: the oldest one scrolls away. */
  lemma OldestDropped(list: seq<ChatMessagePayload>, p: ChatMessagePayload)
    requires |list| == MaxMessages
    ensures HandleEvent(list, Event(ChatMessage(p))) == list[1..] + [p]
  {
  }
}
