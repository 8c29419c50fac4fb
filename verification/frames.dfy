/** The webcam and in-game frames (`WebcamFrame.tsx`, `GameFrame.tsx`): the
    category banner, the viewer label, the streamer's name and the uptime
    the two frames compute alike from the stream's start time.

    `new Date(startedAt).getTime()` is the `parse` parameter (None for a
    string that is not a date, where JavaScript yields NaN) and `Date.now()`
    is `now`; the 30-second refresh recomputes the same function. */
module Frames {
  import opened Wrappers
  import Text
  import Clock
  import Stream

  const MinuteMs := 60000
  const DefaultTwitchName := "KavalieroGameDev"

  /** `useUptime` as written. A start time that is not a date makes every
      step NaN: `diffMs < 0` is false, `hours > 0` is false, and the text
      becomes "NaNmin". */
  function UptimeAsWritten(startedAt: Option<string>, parse: string -> Option<int>, now: int): (r: Option<string>)
    ensures startedAt.None? || startedAt.value == "" ==> r.None?
    ensures startedAt.Some? && startedAt.value != "" && parse(startedAt.value).None? ==> r == Some("NaNmin")
  {
    if startedAt.None? || startedAt.value == "" then None
    else match parse(startedAt.value)
      case None => Some("NaNmin")
      case Some(start) =>
        var diff := now - start;
        if diff < 0 then None else Some(Clock.HoursMinutes(diff / MinuteMs, "min"))
  }

  /** `useUptime` with the unparseable start time treated like a missing
      one: no uptime rather than "NaNmin". */
  function Uptime(startedAt: Option<string>, parse: string -> Option<int>, now: int): (r: Option<string>)
    ensures r.Some? <==>
      && startedAt.Some? && startedAt.value != ""
      && parse(startedAt.value).Some? && now - parse(startedAt.value).value >= 0
    ensures r.Some? ==> Clock.Read(r.value, "min") == Some((now - parse(startedAt.value).value) / MinuteMs)
  {
    if startedAt.None? || startedAt.value == "" then None
    else match parse(startedAt.value)
      case None => None
      case Some(start) =>
        var diff := now - start;
        if diff < 0 then None
        else
          Clock.RoundTrip(diff / MinuteMs, "min");
          Some(Clock.HoursMinutes(diff / MinuteMs, "min"))
  }

  /** Wherever the start time is a date, the corrected hook and the hook as
      written agree. */
  lemma UptimeAgrees(startedAt: Option<string>, parse: string -> Option<int>, now: int)
    requires startedAt.Some? ==> parse(startedAt.value).Some?
    ensures Uptime(startedAt, parse, now) == UptimeAsWritten(startedAt, parse, now)
  {
  }

  /** A stream started 84 minutes and 59 seconds ago shows "1h24"; one
      started 59 seconds ago shows "0min". */
  lemma UptimeExamples(start: int)
    ensures Uptime(Some("t"), _ => Some(start), start + 84 * MinuteMs + 59000) == Some("1h24")
    ensures Uptime(Some("t"), _ => Some(start), start + 59000) == Some("0min")
  {
    var parse: string -> Option<int> := _ => Some(start);
    assert parse("t") == Some(start);
    assert (84 * MinuteMs + 59000) / MinuteMs == 84;
    assert 59000 / MinuteMs == 0;
    assert Text.NatToString(24) == "24";
    assert Text.NatToString(1) == "1";
    assert Text.NatToString(0) == "0";
    assert Text.PadStart2("24") == "24";
    assert Clock.HoursMinutes(84, "min") == "1h24";
    assert Clock.HoursMinutes(0, "min") == "0min";
  }

  /** A start time that is not a date ("soon") shows as "En quête depuis
      NaNmin" on the frame, where the hook's own comment promises no uptime. */
  lemma NaNUptimeShown(now: int)
    ensures UptimeAsWritten(Some("soon"), _ => None, now) == Some("NaNmin")
    ensures UptimeText(UptimeAsWritten(Some("soon"), _ => None, now)) == "En qu\U{EA}te depuis NaNmin"
    ensures UptimeText(Uptime(Some("soon"), _ => None, now)) == "En pr\U{E9}paration..."
  {
  }

  /** The uptime line: the uptime when there is one, else the waiting text. */
  function UptimeText(uptime: Option<string>): (t: string)
    ensures uptime.Some? && uptime.value != "" ==> t == "En qu\U{EA}te depuis " + uptime.value
    ensures uptime.None? || uptime.value == "" ==> t == "En pr\U{E9}paration..."
  {
    if uptime.Some? && uptime.value != "" then "En qu\U{EA}te depuis " + uptime.value
    else "En pr\U{E9}paration..."
  }

  /** A frame with stream info shows "En quête depuis ..." exactly when the
      stream started at a date no later than now. */
  lemma UptimeLine(info: Option<Stream.StreamInfoPayload>, parse: string -> Option<int>, now: int)
    ensures var t := UptimeText(Uptime(StartedAt(info), parse, now));
      (t != "En pr\U{E9}paration...") <==>
        && info.Some? && info.value.startedAt != ""
        && parse(info.value.startedAt).Some? && parse(info.value.startedAt).value <= now
  {
    var u := Uptime(StartedAt(info), parse, now);
    if u.Some? {
      assert u.value != "" by {
        Clock.RoundTrip((now - parse(info.value.startedAt).value) / MinuteMs, "min");
      }
      var t := UptimeText(u);
      assert t[3] == 'q';
      assert "En pr\U{E9}paration..."[3] == 'p';
    }
  }

  /** `streamInfo?.startedAt ?? null`. */
  function StartedAt(info: Option<Stream.StreamInfoPayload>): (r: Option<string>)
    ensures r.Some? <==> info.Some?
    ensures info.Some? ==> r.value == info.value.startedAt
  {
    if info.Some? then Some(info.value.startedAt) else None
  }

  /** The category banner: the game, or "Just Chatting" without stream info. */
  function Banner(info: Option<Stream.StreamInfoPayload>): (b: string)
    ensures info.Some? ==> b == info.value.game
    ensures info.None? ==> b == "Just Chatting"
  {
    if info.Some? then info.value.game else "Just Chatting"
  }

  /** The label after the viewer count: singular up to one viewer. */
  function ViewerLabel(count: int): (word: string)
    ensures |word| >= 10 && word[..10] == "Aventurier"
    ensures |word| == 11 <==> count > 1
  {
    if count <= 1 then "Aventurier" else "Aventuriers"
  }

  /** The name on the in-game frame's parchment: the `twitchName` prop, or
      the default when it is not passed. */
  function TwitchName(prop: Option<string>): (name: string)
    ensures prop.Some? ==> name == prop.value
    ensures prop.None? ==> name == DefaultTwitchName
  {
    if prop.Some? then prop.value else DefaultTwitchName
  }
}
