/** The credits overlay page (`CreditsPage.tsx`): it waits for the one
    `credits:data` frame, then maps the payload to what the scrolling view
    shows. */
module CreditsPage {
  import opened Wrappers
  import opened Shared
  import Text
  import Clock

  /** `formatDuration`: `{h}h{mm}` from one hour on, else `{m} min`, with
      `Math.floor` for the hours and JavaScript's `%` for the minutes. */
  function FormatDuration(minutes: int): (s: string)
    ensures minutes >= 0 ==> s == Clock.HoursMinutes(minutes, " min")
    ensures minutes < 0 ==> s == Text.IntToString(Text.TruncRem(minutes, 60)) + " min"
  {
    var h := minutes / 60;   // Euclidean division by a positive number is the floor
    var m := Text.TruncRem(minutes, 60);
    if h > 0 then Text.IntToString(h) + "h" + Text.PadStart2(Text.IntToString(m))
    else Text.IntToString(m) + " min"
  }

  /** A shown duration reads back as the number of minutes it came from. */
  lemma DurationRoundTrip(minutes: nat)
    ensures Clock.Read(FormatDuration(minutes), " min") == Some(minutes)
  {
    Clock.RoundTrip(minutes, " min");
  }

  /** Two worked values: 84 minutes is "1h24", 5 minutes is "5 min". */
  lemma DurationExamples()
    ensures FormatDuration(84) == "1h24" && FormatDuration(5) == "5 min"
  {
    assert Text.NatToString(24) == "24";
    assert Text.NatToString(1) == "1";
    assert Text.NatToString(5) == "5";
  }

  datatype StreamView = StreamView(title: string, game: string, duration: string)
  datatype NamedCount = NamedCount(name: string, count: int)
  datatype StatsView = StatsView(viewers: int, messages: int, topChatter: Option<NamedCount>)
  datatype SubView = SubView(name: string, kind: seq<Text.Piece>)

  datatype CreditsView = CreditsView(
    stream: StreamView,
    stats: StatsView,
    firstMessage: Option<string>,
    followers: seq<string>,
    subscribers: seq<SubView>,
    raiders: seq<NamedCount>,    // channel and viewers
    cheers: seq<NamedCount>)     // name and bits

  function FollowerNames(vs: seq<ViewerInfo>): (r: seq<string>)
    ensures |r| == |vs| && forall i :: 0 <= i < |vs| ==> r[i] == vs[i].displayName
  {
    seq(|vs|, i requires 0 <= i < |vs| => vs[i].displayName)
  }

  function SubViews(subs: seq<SubEntry>): (r: seq<SubView>)
    ensures |r| == |subs|
    ensures forall i :: 0 <= i < |subs| ==>
      r[i].name == subs[i].viewer.displayName && r[i].kind == [Text.Lit("Tier "), Text.Num(subs[i].tier)]
  {
    seq(|subs|, i requires 0 <= i < |subs| => SubView(subs[i].viewer.displayName, [Text.Lit("Tier "), Text.Num(subs[i].tier)]))
  }

  function RaiderViews(raids: seq<RaidEntry>): (r: seq<NamedCount>)
    ensures |r| == |raids|
    ensures forall i :: 0 <= i < |raids| ==> r[i] == NamedCount(raids[i].fromChannel, raids[i].viewers)
  {
    seq(|raids|, i requires 0 <= i < |raids| => NamedCount(raids[i].fromChannel, raids[i].viewers))
  }

  function CheerViews(bits: seq<Tally>): (r: seq<NamedCount>)
    ensures |r| == |bits|
    ensures forall i :: 0 <= i < |bits| ==> r[i] == NamedCount(bits[i].viewer.displayName, bits[i].amount)
  {
    seq(|bits|, i requires 0 <= i < |bits| => NamedCount(bits[i].viewer.displayName, bits[i].amount))
  }

  /** `mapCreditsData`: the game line repeats the title, absent lists show
      as empty ones, present lists keep their length and order with each
      entry shown by its display name (and tier, viewers or bits), cheers
      come from the bits leaderboard. */
  function MapCreditsData(c: CreditsPayload): (v: CreditsView)
    ensures v.stream.game == c.stream.title && v.stream.title == c.stream.title
    ensures v.stream.duration == FormatDuration(c.stream.duration)
    ensures v.stats.viewers == c.stats.totalViewers && v.stats.messages == c.stats.totalMessages
    ensures v.stats.topChatter.Some? <==> c.stats.topChatter.Some?
    ensures c.stats.topChatter.Some? ==>
      v.stats.topChatter.value == NamedCount(c.stats.topChatter.value.viewer.displayName, c.stats.topChatter.value.messageCount)
    ensures v.firstMessage.Some? <==> c.firstMessage.Some?
    ensures c.firstMessage.Some? ==> v.firstMessage.value == c.firstMessage.value.displayName
    ensures |v.followers| == |c.followers.GetOr([])|
    ensures |v.subscribers| == |c.subscribers.GetOr([])|
    ensures |v.raiders| == |c.raiders.GetOr([])|
    ensures |v.cheers| == |c.topBitsDonator.GetOr([])|
    ensures forall i :: 0 <= i < |v.followers| ==> v.followers[i] == c.followers.value[i].displayName
    ensures forall i :: 0 <= i < |v.subscribers| ==>
      v.subscribers[i] == SubView(c.subscribers.value[i].viewer.displayName,
                                  [Text.Lit("Tier "), Text.Num(c.subscribers.value[i].tier)])
    ensures forall i :: 0 <= i < |v.raiders| ==>
      v.raiders[i] == NamedCount(c.raiders.value[i].fromChannel, c.raiders.value[i].viewers)
    ensures forall i :: 0 <= i < |v.cheers| ==>
      v.cheers[i] == NamedCount(c.topBitsDonator.value[i].viewer.displayName, c.topBitsDonator.value[i].amount)
  {
    CreditsView(
      StreamView(c.stream.title, c.stream.title, FormatDuration(c.stream.duration)),
      StatsView(c.stats.totalViewers, c.stats.totalMessages,
        if c.stats.topChatter.Some? then
          Some(NamedCount(c.stats.topChatter.value.viewer.displayName, c.stats.topChatter.value.messageCount))
        else None),
      if c.firstMessage.Some? then Some(c.firstMessage.value.displayName) else None,
      FollowerNames(c.followers.GetOr([])),
      SubViews(c.subscribers.GetOr([])),
      RaiderViews(c.raiders.GetOr([])),
      CheerViews(c.topBitsDonator.GetOr([])))
  }

  /** A subscriber with an integral tier n is labelled "Tier n". */
  lemma TierLabel(s: SubEntry, n: int)
    requires s.tier == n as real
    ensures Text.Render(SubViews([s])[0].kind) == Some("Tier " + Text.IntToString(n))
  {
    var k: seq<Text.Piece> := [Text.Lit("Tier "), Text.Num(n as real)];
    assert k[1..] == [Text.Num(n as real)];
    assert k[1..][1..] == [];
    assert (n as real).Floor == n;
    assert Text.Render(k[1..]) == Some(Text.IntToString(n) + "");
    assert Text.IntToString(n) + "" == Text.IntToString(n);
  }

  /** `handleEvent`: only `credits:data` replaces the stored payload. */
  function HandleEvent(credits: Option<CreditsPayload>, f: Frame): (r: Option<CreditsPayload>)
    ensures f.Event? && f.event.CreditsData? ==> r == Some(f.event.credits)
    ensures !(f.Event? && f.event.CreditsData?) ==> r == credits
  {
    if f.Event? && f.event.CreditsData? then Some(f.event.credits) else credits
  }

  /** What the page renders: nothing until a payload arrived. */
  function View(credits: Option<CreditsPayload>): (v: Option<CreditsView>)
    ensures v.None? <==> credits.None?
    ensures credits.Some? ==> v == Some(MapCreditsData(credits.value))
  {
    if credits.None? then None else Some(MapCreditsData(credits.value))
  }

  function HandleAll(credits: Option<CreditsPayload>, frames: seq<Frame>): Option<CreditsPayload>
    decreases |frames|
  {
    if frames == [] then credits else HandleAll(HandleEvent(credits, frames[0]), frames[1..])
  }

  /** Without a `credits:data` frame the page stays blank, whatever else
      arrives. */
  lemma {:induction false} BlankUntilCredits(frames: seq<Frame>)
    requires forall i :: 0 <= i < |frames| ==> !(frames[i].Event? && frames[i].event.CreditsData?)
    ensures View(HandleAll(None, frames)).None?
    decreases |frames|
  {
    if frames != [] {
      BlankUntilCredits(frames[1..]);
    }
  }
}
