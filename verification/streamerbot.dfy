/** The upstream normaliser and its handlers (`streamerbot.service.ts`): events
    from the broadcasting tool arrive in two shapes, live `Twitch.*` events and
    `Raw.Action` test triggers, and are normalised into one call per kind of
    event; each handler then records the event, broadcasts an alert and, for
    follows and subscriptions, moves the goal counters.

    Upstream fields are untyped; a field is absent (`None`, for `null` or
    `undefined`) or holds a boolean, an integer or a string. */
module Streamerbot {
  import opened Wrappers
  import opened Shared
  import Text
  import Goals

  // ---------------------------------------------------------------------------
  // Untyped upstream values
  // ---------------------------------------------------------------------------

  datatype Scalar = Bool(b: bool) | Num(n: int) | Str(s: string)

  type Field = Option<Scalar>

  /** `String(x)`. */
  function ScalarText(x: Scalar): string {
    match x
    case Bool(b) => if b then "true" else "false"
    case Num(n) => Text.IntToString(n)
    case Str(s) => s
  }

  /** `String(f ?? "")`. */
  function FieldText(f: Field): (r: string)
    ensures f.None? ==> r == ""
  {
    match f
    case None => ""
    case Some(x) => ScalarText(x)
  }

  /** JavaScript truthiness: absent, `false`, `0` and `""` are falsy. */
  predicate Truthy(f: Field) {
    match f
    case None => false
    case Some(Bool(b)) => b
    case Some(Num(n)) => n != 0
    case Some(Str(s)) => s != ""
  }

  /** `a ?? b`. */
  function Coalesce<T>(a: Option<T>, b: Option<T>): (r: Option<T>)
    ensures a.Some? ==> r == a
    ensures a.None? ==> r == b
  {
    if a.Some? then a else b
  }

  // ---------------------------------------------------------------------------
  // Viewer extraction
  // ---------------------------------------------------------------------------

  /** A user object as upstream sends it. Live events carry `id`, `login` and
      `name` (the display name); test triggers carry `id`, `name` (the login)
      and `display`. */
  datatype UserRecord = UserRecord(id: Field, login: Field, name: Field, display: Field)

  /** `extractViewer`: no user, or a user whose id reads as the empty string,
      gives no viewer; otherwise the login is `login`, else `name`, and the
      display name is `display`, else `name`, else `login`. */
  function ExtractViewer(user: Option<UserRecord>): (r: Option<ViewerInfo>)
    ensures r.Some? <==> user.Some? && FieldText(user.value.id) != ""
    ensures r.Some? ==> r.value.twitchId == FieldText(user.value.id)
    ensures r.Some? && user.value.login.Some? ==> r.value.username == ScalarText(user.value.login.value)
    ensures r.Some? && user.value.login.None? ==> r.value.username == FieldText(user.value.name)
    ensures r.Some? && user.value.display.Some? ==> r.value.displayName == ScalarText(user.value.display.value)
    ensures r.Some? && user.value.display.None? && user.value.name.Some? ==>
      r.value.displayName == ScalarText(user.value.name.value)
    ensures r.Some? && user.value.display.None? && user.value.name.None? ==>
      r.value.displayName == FieldText(user.value.login)
  {
    match user
    case None => None
    case Some(u) =>
      var twitchId := FieldText(u.id);
      if twitchId == "" then None
      else Some(ViewerInfo(
        twitchId,
        FieldText(Coalesce(u.login, u.name)),
        FieldText(Coalesce(u.display, Coalesce(u.name, u.login)))))
  }

  /** The record a live event's user object has. */
  function LiveUser(id: string, login: string, displayName: string): UserRecord {
    UserRecord(Some(Str(id)), Some(Str(login)), Some(Str(displayName)), None)
  }

  /** The record a test trigger's user object has. */
  function TestUser(id: string, login: string, displayName: string): UserRecord {
    UserRecord(Some(Str(id)), None, Some(Str(login)), Some(Str(displayName)))
  }

  /** The two user shapes of one viewer normalise to the same identity. */
  lemma BothUserShapesAgree(id: string, login: string, displayName: string)
    requires id != ""
    ensures ExtractViewer(Some(LiveUser(id, login, displayName))) == Some(ViewerInfo(id, login, displayName))
    ensures ExtractViewer(Some(TestUser(id, login, displayName))) == Some(ViewerInfo(id, login, displayName))
  {
  }

  /** The flat `user_id` / `user_login` / `user_name` fields of some live events. */
  datatype FlatUser = FlatUser(id: Field, login: Field, name: Field)

  /** The object the handlers build from flat fields: `user_name` serves as both
      `display` and `name`. */
  function FlatRecord(f: FlatUser): UserRecord {
    UserRecord(f.id, f.login, f.name, f.name)
  }

  /** `extractViewer(data.user) ?? extractViewer({ ...flat fields })`. */
  function ViewerOrFlat(user: Option<UserRecord>, flat: FlatUser): (r: Option<ViewerInfo>)
    ensures ExtractViewer(user).Some? ==> r == ExtractViewer(user)
    ensures ExtractViewer(user).None? ==> r == ExtractViewer(Some(FlatRecord(flat)))
  {
    Coalesce(ExtractViewer(user), ExtractViewer(Some(FlatRecord(flat))))
  }

  // ---------------------------------------------------------------------------
  // Tier parsing
  // ---------------------------------------------------------------------------

  /** The tier names and codes upstream uses, already lower-cased. */
  function KnownTier(s: string): (r: Option<real>)
    ensures r.Some? ==> r.value == 1.0 || r.value == 2.0 || r.value == 3.0
  {
    if s == "prime" || s == "tier 1" || s == "1000" then Some(1.0)
    else if s == "tier 2" || s == "2000" then Some(2.0)
    else if s == "tier 3" || s == "3000" then Some(3.0)
    else None
  }

  /** The tier an integer stands for: n / 1000 from 1000 up, 1 for 0, and n
      itself below 1000. */
  function TierOfNumber(n: int): (r: real)
    ensures r != 0.0
  {
    if n >= 1000 then n as real / 1000.0 else if n == 0 then 1.0 else n as real
  }

  /** The tier of a lower-cased, truthy tier text: a known name or code, else
      its integer prefix, else (`NaN`) 1. */
  function TierOfText(s: string): (r: real)
    ensures r != 0.0
  {
    match KnownTier(s)
    case Some(t) => t
    case None =>
      match Text.ParseInt(s)
      case None => 1.0
      case Some(n) => TierOfNumber(n)
  }

  /** `parseTier`: falsy → 1; the names "prime", "tier 1|2|3" and the codes
      "1000|2000|3000" (any letter case) → 1, 2, 3; otherwise the integer
      prefix, divided by 1000 from 1000 up, with 0 and `NaN` read as 1. */
  function ParseTier(raw: Field): (r: real)
    ensures !Truthy(raw) ==> r == 1.0
    ensures r != 0.0
  {
    if !Truthy(raw) then 1.0 else TierOfText(Text.ToLower(ScalarText(raw.value)))
  }

  lemma IntToStringShape(n: int)
    ensures |Text.IntToString(n)| > 0
    ensures Text.IntToString(n)[0] == '-' || Text.IsDigit(Text.IntToString(n)[0])
    ensures Text.ToLower(Text.IntToString(n)) == Text.IntToString(n)
    ensures n != 0 ==> Text.IntToString(n) != "0"
  {
    Text.ToLowerOfNumber(n);
    if n != 0 && Text.IntToString(n) == "0" {
      Text.ParseIntRoundTrip(n);
      Text.ParseIntRoundTrip(0);
    }
  }

  lemma ThousandsStrings()
    ensures Text.IntToString(1000) == "1000"
    ensures Text.IntToString(2000) == "2000"
    ensures Text.IntToString(3000) == "3000"
  {
  }

  /** The known codes are exactly the decimal strings of 1000, 2000 and 3000,
      and they agree with the arithmetic reading. */
  lemma KnownTierOfNumber(n: int)
    ensures KnownTier(Text.IntToString(n)).Some? ==> KnownTier(Text.IntToString(n)).value == TierOfNumber(n)
  {
    var s := Text.IntToString(n);
    IntToStringShape(n);
    assert s != "prime" && s != "tier 1" && s != "tier 2" && s != "tier 3" by {
      assert "prime"[0] == 'p' && "tier 1"[0] == 't' && "tier 2"[0] == 't' && "tier 3"[0] == 't';
    }
    ThousandsStrings();
    Text.ParseIntRoundTrip(n);
    if s == "1000" {
      Text.ParseIntRoundTrip(1000);
    } else if s == "2000" {
      Text.ParseIntRoundTrip(2000);
    } else if s == "3000" {
      Text.ParseIntRoundTrip(3000);
    }
  }

  /** A tier sent as a number, or as that number's decimal string, is read
      arithmetically; the recognised codes agree with the arithmetic. */
  lemma ParseTierOfNumber(n: int)
    ensures ParseTier(Some(Num(n))) == TierOfNumber(n)
    ensures ParseTier(Some(Str(Text.IntToString(n)))) == TierOfNumber(n)
  {
    IntToStringShape(n);
    KnownTierOfNumber(n);
    Text.ParseIntRoundTrip(n);
  }

  /** A name is compared after lower-casing, so its letter case does not matter. */
  lemma {:induction false} ParseTierIgnoresCase(s: string)
    requires s != ""
    ensures ParseTier(Some(Str(s))) == TierOfText(Text.ToLower(s))
    ensures ParseTier(Some(Str(Text.ToLower(s)))) == ParseTier(Some(Str(s)))
  {
    Text.ToLowerIdempotent(s);
    assert |Text.ToLower(s)| == |s|;
  }

  /** The names upstream uses give tiers 1 to 3. */
  lemma ParseTierNames()
    ensures ParseTier(Some(Str("prime"))) == 1.0
    ensures ParseTier(Some(Str("tier 1"))) == 1.0
    ensures ParseTier(Some(Str("tier 2"))) == 2.0
    ensures ParseTier(Some(Str("tier 3"))) == 3.0
  {
    LowerFixed("prime");
    LowerFixed("tier 1");
    LowerFixed("tier 2");
    LowerFixed("tier 3");
  }

  lemma LowerFixed(s: string)
    requires forall i :: 0 <= i < |s| ==> !('A' <= s[i] <= 'Z')
    ensures Text.ToLower(s) == s
  {
  }

  /** Codes that are not one of the known ones still produce a tier, but one
      outside 1..3: 2500 gives 2.5, 5000 gives 5, -5 gives -5. */
  lemma ParseTierOutsideRange()
    ensures ParseTier(Some(Num(2500))) == 2.5
    ensures ParseTier(Some(Num(5000))) == 5.0
    ensures ParseTier(Some(Num(-5))) == -5.0
  {
    ParseTierOfNumber(2500);
    ParseTierOfNumber(5000);
    ParseTierOfNumber(-5);
  }

  // ---------------------------------------------------------------------------
  // Chat emotes
  // ---------------------------------------------------------------------------

  /** One upstream emote record; the indexes are numbers or absent. */
  datatype RawEmote = RawEmote(
    id: Field, kind: Field, name: Field,
    startIndex: Option<int>, endIndex: Option<int>, imageUrl: Field)

  /** The defaults the chat handler fills in: empty id, name and URL, kind
      "Twitch", indexes 0; a present field is kept, as `String(...)` of its
      value for the texts. */
  function DefaultEmote(e: RawEmote): (c: ChatEmote)
    ensures e.kind.None? ==> c.kind == "Twitch"
    ensures e.startIndex.None? ==> c.startIndex == 0
    ensures e.endIndex.None? ==> c.endIndex == 0
    ensures e.id.None? ==> c.id == ""
    ensures e.name.None? ==> c.name == ""
    ensures e.imageUrl.None? ==> c.imageUrl == ""
    ensures e.id.Some? ==> c.id == ScalarText(e.id.value)
    ensures e.kind.Some? ==> c.kind == ScalarText(e.kind.value)
    ensures e.name.Some? ==> c.name == ScalarText(e.name.value)
    ensures e.imageUrl.Some? ==> c.imageUrl == ScalarText(e.imageUrl.value)
    ensures e.startIndex.Some? ==> c.startIndex == e.startIndex.value
    ensures e.endIndex.Some? ==> c.endIndex == e.endIndex.value
  {
    ChatEmote(
      FieldText(e.id),
      if e.kind.None? then "Twitch" else ScalarText(e.kind.value),
      FieldText(e.name),
      e.startIndex.GetOr(0),
      e.endIndex.GetOr(0),
      FieldText(e.imageUrl))
  }

  /** An emote survives the filter when its name and image URL are non-empty. */
  predicate Usable(c: ChatEmote) {
    c.name != "" && c.imageUrl != ""
  }

  /** Fill in the defaults, then keep the usable emotes, in upstream order. */
  function NormalizeEmotes(raw: seq<RawEmote>): (r: seq<ChatEmote>)
    ensures |r| <= |raw|
    ensures forall i :: 0 <= i < |r| ==> Usable(r[i])
    ensures forall i :: 0 <= i < |raw| && Usable(DefaultEmote(raw[i])) ==> DefaultEmote(raw[i]) in r
    ensures forall c :: c in r ==> exists i :: 0 <= i < |raw| && c == DefaultEmote(raw[i])
  {
    if |raw| == 0 then []
    else
      var d := DefaultEmote(raw[0]);
      var rest := NormalizeEmotes(raw[1..]);
      assert forall c :: c in rest ==> exists i :: 0 <= i < |raw| && c == DefaultEmote(raw[i]) by {
        forall c | c in rest ensures exists i :: 0 <= i < |raw| && c == DefaultEmote(raw[i]) {
          var k :| 0 <= k < |raw[1..]| && c == DefaultEmote(raw[1..][k]);
          assert c == DefaultEmote(raw[k + 1]);
        }
      }
      assert forall i :: 1 <= i < |raw| ==> raw[i] == raw[1..][i - 1];
      if Usable(d) then [d] + rest else rest
  }

  /** The filter is applied element by element, so it keeps upstream order. */
  lemma {:induction false} NormalizeEmotesAppend(a: seq<RawEmote>, b: seq<RawEmote>)
    ensures NormalizeEmotes(a + b) == NormalizeEmotes(a) + NormalizeEmotes(b)
  {
    if |a| == 0 {
      assert a + b == b;
    } else {
      assert (a + b)[1..] == a[1..] + b;
      NormalizeEmotesAppend(a[1..], b);
    }
  }

  // ---------------------------------------------------------------------------
  // Upstream events
  // ---------------------------------------------------------------------------

  /** The nested `message` object of a chat event. */
  datatype MessageBody = MessageBody(message: Option<string>, emotes: Option<seq<RawEmote>>)

  datatype RewardInfo = RewardInfo(title: Option<string>, cost: Option<int>)

  /** The `arguments` of a `Raw.Action` test trigger. */
  datatype ActionArgs = ActionArgs(
    isTest: Field,
    triggerName: Field,
    bits: Option<int>,
    tier: Field,
    cumulative: Option<int>,
    cumulativeMonths: Option<int>,
    recipientUser: Option<string>,
    totalSubsGifted: Option<int>,
    anonymous: Option<bool>,
    viewers: Option<int>,
    rewardName: Option<string>,
    rewardCost: Option<int>)

  /** The upstream events the server subscribes to; `Other` stands for every
      event that is only written to the debug log. */
  datatype Upstream =
    | TwitchChatMessage(chatUser: Option<UserRecord>, text: Option<string>,
                        body: Option<MessageBody>, topEmotes: Option<seq<RawEmote>>)
    | TwitchFollow(user: Option<UserRecord>, flat: FlatUser)
    | TwitchSub(user: Option<UserRecord>, flat: FlatUser, subTierSnake: Field, subTierCamel: Field)
    | TwitchReSub(user: Option<UserRecord>, flat: FlatUser, subTierCamel: Field, subTierSnake: Field,
                  monthsCamel: Option<int>, monthsSnake: Option<int>)
    | TwitchRaid(user: Option<UserRecord>, flat: FlatUser, viewerCount: Option<int>, viewersField: Option<int>)
    | TwitchCheer(user: Option<UserRecord>, flat: FlatUser, bits: Option<int>)
    | TwitchRewardRedemption(rewardUser: Option<UserRecord>, reward: Option<RewardInfo>,
                             rewardName: Option<string>, rewardCost: Option<int>)
    | RawAction(actionUser: Option<UserRecord>, args: Option<ActionArgs>)
    | Other

  /** One call of a shared handler: the normal form of both upstream shapes. */
  datatype Call =
    | HandleChat(viewer: ViewerInfo, content: string, emotes: seq<ChatEmote>)
    | HandleFollow(viewer: ViewerInfo)
    | HandleSub(viewer: ViewerInfo, tier: real, months: int)
    | HandleGiftSub(viewer: ViewerInfo, recipientName: string, tier: real, totalGifted: int, anonymous: bool)
    | HandleRaid(viewer: ViewerInfo, viewers: int)
    | HandleCheer(viewer: ViewerInfo, amount: int)
    | HandleReward(viewer: ViewerInfo, rewardName: string, rewardCost: int)

  function ChatContent(text: Option<string>, body: Option<MessageBody>): string {
    Coalesce(text, if body.Some? then body.value.message else None).GetOr("")
  }

  function ChatRawEmotes(body: Option<MessageBody>, top: Option<seq<RawEmote>>): seq<RawEmote> {
    Coalesce(if body.Some? then body.value.emotes else None, top).GetOr([])
  }

  /** The seven trigger names the test branch handles. */
  predicate KnownTrigger(name: Field) {
    name in {Some(Str("Follow")), Some(Str("Cheer")), Some(Str("Subscription")), Some(Str("Resubscription")),
             Some(Str("Gift Subscription")), Some(Str("Raid")), Some(Str("Reward Redemption"))}
  }

  /** The test-trigger branch: only `isTest` triggers with a name are handled,
      and only the seven known trigger names, each with its defaults. */
  function NormalizeAction(user: Option<UserRecord>, args: Option<ActionArgs>): (r: Option<Call>)
    ensures r.Some? <==>
      args.Some? && Truthy(args.value.isTest) && KnownTrigger(args.value.triggerName) && ExtractViewer(user).Some?
    ensures r.Some? ==> Truthy(args.value.triggerName)
    ensures r.Some? ==> r.value.viewer == ExtractViewer(user).value
  {
    if args.None? || !Truthy(args.value.isTest) || !Truthy(args.value.triggerName) then None
    else
      var a := args.value;
      var viewer := ExtractViewer(user);
      if viewer.None? then None
      else
        var v := viewer.value;
        if a.triggerName == Some(Str("Follow")) then Some(HandleFollow(v))
        else if a.triggerName == Some(Str("Cheer")) then Some(HandleCheer(v, a.bits.GetOr(0)))
        else if a.triggerName == Some(Str("Subscription")) then Some(HandleSub(v, ParseTier(a.tier), 1))
        else if a.triggerName == Some(Str("Resubscription")) then
          Some(HandleSub(v, ParseTier(a.tier), Coalesce(a.cumulative, a.cumulativeMonths).GetOr(1)))
        else if a.triggerName == Some(Str("Gift Subscription")) then
          Some(HandleGiftSub(v, a.recipientUser.GetOr("Inconnu"), ParseTier(a.tier),
                             a.totalSubsGifted.GetOr(1), a.anonymous.GetOr(false)))
        else if a.triggerName == Some(Str("Raid")) then Some(HandleRaid(v, a.viewers.GetOr(0)))
        else if a.triggerName == Some(Str("Reward Redemption")) then
          Some(HandleReward(v, a.rewardName.GetOr("Inconnu"), a.rewardCost.GetOr(0)))
        else None
  }

  /** Normalise one upstream event into the handler call it triggers, if any.
      Every call names a viewer with a non-empty id. */
  function Normalize(ev: Upstream): (r: Option<Call>)
    ensures r.Some? ==> r.value.viewer.twitchId != ""
    ensures ev.Other? ==> r.None?
    ensures r.Some? && r.value.HandleChat? ==> forall i :: 0 <= i < |r.value.emotes| ==> Usable(r.value.emotes[i])
    ensures ev.TwitchChatMessage? ==>
      (r.Some? <==> ExtractViewer(ev.chatUser).Some?) && (r.Some? ==> r.value.HandleChat?)
    ensures ev.TwitchRewardRedemption? ==>
      (r.Some? <==> ExtractViewer(ev.rewardUser).Some?) && (r.Some? ==> r.value.HandleReward?)
    ensures ev.TwitchFollow? || ev.TwitchSub? || ev.TwitchReSub? || ev.TwitchRaid? || ev.TwitchCheer? ==>
      && (r.Some? <==> ViewerOrFlat(ev.user, ev.flat).Some?)
      && (r.Some? ==> r.value.viewer == ViewerOrFlat(ev.user, ev.flat).value)
    ensures r.Some? && ev.TwitchFollow? ==> r.value.HandleFollow?
    ensures r.Some? && ev.TwitchSub? ==> r.value == HandleSub(r.value.viewer, ParseTier(Coalesce(ev.subTierSnake, ev.subTierCamel)), 1)
    ensures r.Some? && ev.TwitchReSub? ==> r.value.HandleSub? && r.value.months == Coalesce(ev.monthsCamel, ev.monthsSnake).GetOr(1)
    ensures r.Some? && ev.TwitchRaid? ==> r.value == HandleRaid(r.value.viewer, Coalesce(ev.viewerCount, ev.viewersField).GetOr(0))
    ensures r.Some? && ev.TwitchCheer? ==> r.value == HandleCheer(r.value.viewer, ev.bits.GetOr(0))
    ensures ev.RawAction? ==> r == NormalizeAction(ev.actionUser, ev.args)
  {
    match ev
    case TwitchChatMessage(user, text, body, top) =>
      var v := ExtractViewer(user);
      if v.None? then None
      else Some(HandleChat(v.value, ChatContent(text, body), NormalizeEmotes(ChatRawEmotes(body, top))))
    case TwitchFollow(user, flat) =>
      var v := ViewerOrFlat(user, flat);
      if v.None? then None else Some(HandleFollow(v.value))
    case TwitchSub(user, flat, snake, camel) =>
      var v := ViewerOrFlat(user, flat);
      if v.None? then None else Some(HandleSub(v.value, ParseTier(Coalesce(snake, camel)), 1))
    case TwitchReSub(user, flat, camel, snake, mCamel, mSnake) =>
      var v := ViewerOrFlat(user, flat);
      if v.None? then None
      else Some(HandleSub(v.value, ParseTier(Coalesce(camel, snake)), Coalesce(mCamel, mSnake).GetOr(1)))
    case TwitchRaid(user, flat, count, viewers) =>
      var v := ViewerOrFlat(user, flat);
      if v.None? then None else Some(HandleRaid(v.value, Coalesce(count, viewers).GetOr(0)))
    case TwitchCheer(user, flat, bits) =>
      var v := ViewerOrFlat(user, flat);
      if v.None? then None else Some(HandleCheer(v.value, bits.GetOr(0)))
    case TwitchRewardRedemption(user, reward, name, cost) =>
      var v := ExtractViewer(user);
      var title := if reward.Some? then reward.value.title else None;
      var price := if reward.Some? then reward.value.cost else None;
      if v.None? then None
      else Some(HandleReward(v.value, Coalesce(title, name).GetOr("Inconnu"), Coalesce(price, cost).GetOr(0)))
    case RawAction(user, args) => NormalizeAction(user, args)
    case Other => None
  }

  /** A test trigger that is not marked as a test, or has no trigger name,
      does nothing, so a live event is never handled twice. */
  lemma RawActionNeedsTestFlag(user: Option<UserRecord>, args: ActionArgs)
    requires !Truthy(args.isTest) || !Truthy(args.triggerName)
    ensures Normalize(RawAction(user, Some(args))) == None
  {
  }

  /** A live follow and the follow test trigger of the same viewer call the
      handler identically. */
  lemma LiveAndTestFollowAgree(id: string, login: string, displayName: string, flat: FlatUser, args: ActionArgs)
    requires id != ""
    requires Truthy(args.isTest) && args.triggerName == Some(Str("Follow"))
    ensures Normalize(TwitchFollow(Some(LiveUser(id, login, displayName)), flat))
         == Normalize(RawAction(Some(TestUser(id, login, displayName)), Some(args)))
         == Some(HandleFollow(ViewerInfo(id, login, displayName)))
  {
    BothUserShapesAgree(id, login, displayName);
  }

  /** A test trigger whose name is not one of the seven does nothing. */
  lemma UnknownTriggerIgnored(user: Option<UserRecord>, args: ActionArgs)
    requires !KnownTrigger(args.triggerName)
    ensures Normalize(RawAction(user, Some(args))) == None
  {
  }

  /** A live sub and the "Subscription" test trigger with the same tier call
      the handler identically: one month, the tier parsed. */
  lemma LiveAndTestSubAgree(id: string, login: string, displayName: string, flat: FlatUser,
                            tier: Field, args: ActionArgs)
    requires id != ""
    requires Truthy(args.isTest) && args.triggerName == Some(Str("Subscription")) && args.tier == tier
    ensures Normalize(TwitchSub(Some(LiveUser(id, login, displayName)), flat, tier, None))
         == Normalize(RawAction(Some(TestUser(id, login, displayName)), Some(args)))
         == Some(HandleSub(ViewerInfo(id, login, displayName), ParseTier(tier), 1))
  {
    BothUserShapesAgree(id, login, displayName);
  }

  /** A live resub and the "Resubscription" test trigger with the same tier
      and cumulative months agree; missing months count as 1. */
  lemma LiveAndTestReSubAgree(id: string, login: string, displayName: string, flat: FlatUser,
                              tier: Field, months: Option<int>, args: ActionArgs)
    requires id != ""
    requires Truthy(args.isTest) && args.triggerName == Some(Str("Resubscription"))
    requires args.tier == tier && args.cumulative == months && args.cumulativeMonths.None?
    ensures Normalize(TwitchReSub(Some(LiveUser(id, login, displayName)), flat, tier, None, months, None))
         == Normalize(RawAction(Some(TestUser(id, login, displayName)), Some(args)))
         == Some(HandleSub(ViewerInfo(id, login, displayName), ParseTier(tier), months.GetOr(1)))
  {
    BothUserShapesAgree(id, login, displayName);
  }

  /** A live cheer and the "Cheer" test trigger agree; missing bits count as 0. */
  lemma LiveAndTestCheerAgree(id: string, login: string, displayName: string, flat: FlatUser,
                              bits: Option<int>, args: ActionArgs)
    requires id != ""
    requires Truthy(args.isTest) && args.triggerName == Some(Str("Cheer")) && args.bits == bits
    ensures Normalize(TwitchCheer(Some(LiveUser(id, login, displayName)), flat, bits))
         == Normalize(RawAction(Some(TestUser(id, login, displayName)), Some(args)))
         == Some(HandleCheer(ViewerInfo(id, login, displayName), bits.GetOr(0)))
  {
    BothUserShapesAgree(id, login, displayName);
  }

  /** A live raid and the "Raid" test trigger agree; a missing count is 0. */
  lemma LiveAndTestRaidAgree(id: string, login: string, displayName: string, flat: FlatUser,
                             viewers: Option<int>, args: ActionArgs)
    requires id != ""
    requires Truthy(args.isTest) && args.triggerName == Some(Str("Raid")) && args.viewers == viewers
    ensures Normalize(TwitchRaid(Some(LiveUser(id, login, displayName)), flat, viewers, None))
         == Normalize(RawAction(Some(TestUser(id, login, displayName)), Some(args)))
         == Some(HandleRaid(ViewerInfo(id, login, displayName), viewers.GetOr(0)))
  {
    BothUserShapesAgree(id, login, displayName);
  }

  /** A live redemption without a `reward` object and the "Reward Redemption"
      test trigger agree; the name defaults to "Inconnu", the cost to 0. */
  lemma LiveAndTestRewardAgree(id: string, login: string, displayName: string,
                               name: Option<string>, cost: Option<int>, args: ActionArgs)
    requires id != ""
    requires Truthy(args.isTest) && args.triggerName == Some(Str("Reward Redemption"))
    requires args.rewardName == name && args.rewardCost == cost
    ensures Normalize(TwitchRewardRedemption(Some(LiveUser(id, login, displayName)), None, name, cost))
         == Normalize(RawAction(Some(TestUser(id, login, displayName)), Some(args)))
         == Some(HandleReward(ViewerInfo(id, login, displayName), name.GetOr("Inconnu"), cost.GetOr(0)))
  {
    BothUserShapesAgree(id, login, displayName);
  }

  /** The "Gift Subscription" test trigger with no details: recipient
      "Inconnu", tier 1, one gift, not anonymous. */
  lemma GiftSubTriggerDefaults(id: string, login: string, displayName: string, args: ActionArgs)
    requires id != ""
    requires Truthy(args.isTest) && args.triggerName == Some(Str("Gift Subscription"))
    requires args.recipientUser.None? && args.tier.None? && args.totalSubsGifted.None? && args.anonymous.None?
    ensures Normalize(RawAction(Some(TestUser(id, login, displayName)), Some(args)))
         == Some(HandleGiftSub(ViewerInfo(id, login, displayName), "Inconnu", 1.0, 1, false))
  {
    BothUserShapesAgree(id, login, displayName);
  }

  /** A live follow that carries only the flat fields uses them: `user_name`
      becomes both the login fallback and the display name. */
  lemma FlatFollow(id: string, login: string, userName: string)
    requires id != ""
    ensures Normalize(TwitchFollow(None, FlatUser(Some(Str(id)), Some(Str(login)), Some(Str(userName)))))
         == Some(HandleFollow(ViewerInfo(id, login, userName)))
  {
  }

  // ---------------------------------------------------------------------------
  // Handlers
  // ---------------------------------------------------------------------------

  /** The server state the handlers read and write. */
  datatype Server = Server(streamId: Option<string>, goals: Goals.GoalsConfig)

  /** `!currentStreamId` is false: a stream is open. */
  predicate StreamActive(s: Server) {
    s.streamId.Some? && s.streamId.value != ""
  }

  /** The values the chat handler draws from outside: `crypto.randomUUID()`
      and the ISO timestamp of `new Date()`. */
  datatype Fresh = Fresh(uuid: string, timestamp: string)

  datatype Outcome = Outcome(server: Server, effects: seq<Goals.Effect>)

  /** The alert a call publishes. */
  function AlertOf(call: Call, stamp: Fresh): (e: WSEvent)
    ensures call.HandleChat? ==> e.ChatMessage? && e.chat.viewer == call.viewer && e.chat.content == call.content
    ensures call.HandleFollow? ==> e == AlertFollow(call.viewer)
    ensures call.HandleSub? ==> e.AlertSub? && e.viewer == call.viewer
    ensures call.HandleRaid? ==> e.AlertRaid? && e.fromChannel == call.viewer.displayName && e.viewers == call.viewers
    ensures !e.ChatClear? && !e.GoalUpdate? && !e.AlertDice? && !e.CreditsData?
  {
    match call
    case HandleChat(v, content, emotes) =>
      ChatMessage(ChatMessagePayload(stamp.uuid, v, content, NonEmpty(emotes), stamp.timestamp))
    case HandleFollow(v) => AlertFollow(v)
    case HandleSub(v, tier, months) => AlertSub(v, tier, months)
    case HandleGiftSub(v, name, tier, total, anonymous) => AlertGiftSub(v, name, tier, total, anonymous)
    case HandleRaid(v, viewers) => AlertRaid(v.displayName, viewers, None)
    case HandleCheer(v, amount) => AlertBits(v, amount)
    case HandleReward(v, name, cost) => AlertChannelPointRedemption(v, name, cost)
  }

  /** Run one handler. Without an open stream nothing happens; when the
      database work fails (`dbOk` false) the error is logged and nothing is
      broadcast; otherwise the alert is broadcast, and a follow or sub then
      bumps its counter, remembers the name and broadcasts the new goal. */
  function Handle(s: Server, call: Call, dbOk: bool, stamp: Fresh): (r: Outcome)
    ensures !StreamActive(s) || !dbOk ==> r == Outcome(s, [])
    ensures r.server.streamId == s.streamId
    ensures !call.HandleFollow? && !call.HandleSub? ==> r.server == s
    ensures StreamActive(s) && dbOk ==> |r.effects| > 0 && r.effects[0] == Goals.Published(AlertOf(call, stamp))
  {
    if !StreamActive(s) || !dbOk then Outcome(s, [])
    else
      var alert := Goals.Published(AlertOf(call, stamp));
      match call
      case HandleFollow(v) =>
        var inc := Goals.IncrementFollowerCount(s.goals);
        var named := Goals.SetLastFollow(inc.state, v.displayName);
        var goal := GoalPayload(Followers, inc.count, named.state.followers.target);
        Outcome(s.(goals := named.state),
                [alert] + inc.effects + named.effects + [Goals.Published(GoalUpdate(goal))])
      case HandleSub(v, _, _) =>
        var inc := Goals.IncrementSubscriberCount(s.goals);
        var named := Goals.SetLastSub(inc.state, v.displayName);
        var goal := GoalPayload(Subscribers, inc.count, named.state.subscribers.target);
        Outcome(s.(goals := named.state),
                [alert] + inc.effects + named.effects + [Goals.Published(GoalUpdate(goal))])
      case _ => Outcome(s, [alert])
  }

  /** A follow during a stream, with the database reachable: the follower count
      goes up by one, the name is remembered, the goals are saved, and exactly
      two events go out: the follow alert, then the goal at its new count. */
  lemma FollowMovesGoal(s: Server, v: ViewerInfo, stamp: Fresh)
    requires StreamActive(s)
    ensures var r := Handle(s, HandleFollow(v), true, stamp);
      && r.server.goals.followers == Goals.GoalState(s.goals.followers.current + 1, s.goals.followers.target)
      && r.server.goals.subscribers == s.goals.subscribers
      && r.server.goals.lastFollow == Some(v.displayName)
      && r.server.goals.lastSub == s.goals.lastSub
      && Goals.Saved(r.server.goals) in r.effects
      && Goals.Events(r.effects) == [AlertFollow(v),
           GoalUpdate(GoalPayload(Followers, s.goals.followers.current + 1, s.goals.followers.target))]
  {
    var r := Handle(s, HandleFollow(v), true, stamp);
    var inc := Goals.IncrementFollowerCount(s.goals);
    var named := Goals.SetLastFollow(inc.state, v.displayName);
    var goal := GoalPayload(Followers, inc.count, named.state.followers.target);
    var a := [Goals.Published(AlertFollow(v))];
    var g := [Goals.Published(GoalUpdate(goal))];
    assert r.effects == a + inc.effects + named.effects + g;
    Goals.EventsAppend(a + inc.effects + named.effects, g);
    Goals.EventsAppend(a + inc.effects, named.effects);
    Goals.EventsAppend(a, inc.effects);
  }

  /** The same for a subscription: the subscriber goal moves, then is published. */
  lemma SubMovesGoal(s: Server, v: ViewerInfo, tier: real, months: int, stamp: Fresh)
    requires StreamActive(s)
    ensures var r := Handle(s, HandleSub(v, tier, months), true, stamp);
      && r.server.goals.subscribers == Goals.GoalState(s.goals.subscribers.current + 1, s.goals.subscribers.target)
      && r.server.goals.followers == s.goals.followers
      && r.server.goals.lastSub == Some(v.displayName)
      && Goals.Events(r.effects) == [AlertSub(v, tier, months),
           GoalUpdate(GoalPayload(Subscribers, s.goals.subscribers.current + 1, s.goals.subscribers.target))]
  {
    var r := Handle(s, HandleSub(v, tier, months), true, stamp);
    var inc := Goals.IncrementSubscriberCount(s.goals);
    var named := Goals.SetLastSub(inc.state, v.displayName);
    var goal := GoalPayload(Subscribers, inc.count, named.state.subscribers.target);
    var a := [Goals.Published(AlertSub(v, tier, months))];
    var g := [Goals.Published(GoalUpdate(goal))];
    assert r.effects == a + inc.effects + named.effects + g;
    Goals.EventsAppend(a + inc.effects + named.effects, g);
    Goals.EventsAppend(a + inc.effects, named.effects);
    Goals.EventsAppend(a, inc.effects);
  }

  /** The whole upstream path: normalise, then run the handler if any. */
  function Dispatch(s: Server, ev: Upstream, dbOk: bool, stamp: Fresh): (r: Outcome)
    ensures Normalize(ev).None? ==> r == Outcome(s, [])
    ensures !StreamActive(s) ==> r == Outcome(s, [])
    ensures forall e :: e in Goals.Events(r.effects) ==>
      (e.ChatMessage? || e.GoalUpdate? || e.AlertFollow? || e.AlertSub? || e.AlertGiftSub? ||
       e.AlertRaid? || e.AlertBits? || e.AlertChannelPointRedemption?)
  {
    match Normalize(ev)
    case None => Outcome(s, [])
    case Some(call) =>
      HandlePublishes(s, call, dbOk, stamp);
      Handle(s, call, dbOk, stamp)
  }

  /** A handler publishes its alert and, for a follow or sub, a goal update;
      nothing else. */
  lemma HandlePublishes(s: Server, call: Call, dbOk: bool, stamp: Fresh)
    ensures forall e :: e in Goals.Events(Handle(s, call, dbOk, stamp).effects) ==>
      e == AlertOf(call, stamp) || e.GoalUpdate?
  {
  }

  /** A chat message's published emotes are the usable ones, in upstream
      order, and the field is omitted exactly when none is usable. */
  lemma ChatPublishesUsableEmotes(s: Server, text: string, user: UserRecord,
                                  raw: seq<RawEmote>, stamp: Fresh)
    requires StreamActive(s) && FieldText(user.id) != ""
    ensures var r := Dispatch(s, TwitchChatMessage(Some(user), Some(text), None, Some(raw)), true, stamp);
      && |r.effects| == 1 && r.effects[0].Published? && r.effects[0].event.ChatMessage?
      && r.effects[0].event.chat.content == text
      && r.effects[0].event.chat.emotes == NonEmpty(NormalizeEmotes(raw))
      && (r.effects[0].event.chat.emotes.None? <==> forall i :: 0 <= i < |raw| ==> !Usable(DefaultEmote(raw[i])))
  {
    var em := NormalizeEmotes(raw);
    if |em| > 0 {
      assert em[0] in em;
      var k :| 0 <= k < |raw| && em[0] == DefaultEmote(raw[k]);
      assert Usable(DefaultEmote(raw[k]));
    }
  }
}
