/** The wire vocabulary shared by the server and the overlays: the viewer
    identity, chat emote spans, the `WSEvent` union and its payloads. */
module Shared {
  import opened Wrappers

  /** What the upstream source knows about a viewer. */
  datatype ViewerInfo = ViewerInfo(twitchId: string, username: string, displayName: string)

  /** One emote span inside a chat message; `endIndex` is inclusive. */
  datatype ChatEmote = ChatEmote(
    id: string,
    kind: string,       // the wire field `type`: "Twitch", "BetterTTV", ...
    name: string,
    startIndex: int,
    endIndex: int,
    imageUrl: string)

  datatype GoalKind = Followers | Subscribers

  /** `GoalPayload`: the wire field `type` is the goal kind. */
  datatype GoalPayload = GoalPayload(kind: GoalKind, current: int, target: int)

  datatype ChatMessagePayload = ChatMessagePayload(
    id: string,
    viewer: ViewerInfo,
    content: string,
    emotes: Option<seq<ChatEmote>>,
    timestamp: string)

  // --- Credits ---------------------------------------------------------------

  datatype StreamSummary = StreamSummary(title: string, duration: int, startedAt: string)

  datatype SubEntry = SubEntry(viewer: ViewerInfo, tier: real)

  datatype RaidEntry = RaidEntry(raider: ViewerInfo, fromChannel: string, viewers: int)

  datatype ChatterEntry = ChatterEntry(viewer: ViewerInfo, messageCount: int)

  /** A per-viewer total: `rollCount` in `diceRolls`, `amount` in the bits and
      channel-point lists. */
  datatype Tally = Tally(viewer: ViewerInfo, amount: int)

  datatype WatchEntry = WatchEntry(viewer: ViewerInfo, duration: int)

  datatype CreditsStats = CreditsStats(
    totalMessages: int,
    totalViewers: int,
    peakViewers: int,
    topChatter: Option<ChatterEntry>,
    topBitsDonator: Option<Tally>,
    topChannelPointUsed: Option<Tally>,
    longestWatchSeries: Option<WatchEntry>)

  datatype CreditsPayload = CreditsPayload(
    stream: StreamSummary,
    followers: Option<seq<ViewerInfo>>,
    subscribers: Option<seq<SubEntry>>,
    raiders: Option<seq<RaidEntry>>,
    topChatters: Option<seq<ChatterEntry>>,
    diceRolls: Option<seq<Tally>>,
    topBitsDonator: Option<seq<Tally>>,
    channelPointUsed: Option<seq<Tally>>,
    lurkers: Option<seq<ViewerInfo>>,
    firstMessage: Option<ViewerInfo>,
    stats: CreditsStats)

  // --- Events ----------------------------------------------------------------

  /** The `WSEvent` union: one constructor per `type` tag. */
  datatype WSEvent =
    | ChatMessage(chat: ChatMessagePayload)                       // chat:message
    | ChatClear                                                   // chat:clear
    | GoalUpdate(goal: GoalPayload)                               // goal:update
    | AlertFollow(viewer: ViewerInfo)                             // alert:follow
    | AlertSub(viewer: ViewerInfo, tier: real, months: int)       // alert:sub
    | AlertGiftSub(viewer: ViewerInfo, recipientName: string,     // alert:gift_sub
                   tier: real, totalGifted: int, anonymous: bool)
    | AlertRaid(fromChannel: string, viewers: int, game: Option<string>)  // alert:raid
    | AlertBits(viewer: ViewerInfo, amount: int)                  // alert:bits
    | AlertDice(viewer: ViewerInfo, faces: int, result: int)      // alert:dice
    | AlertChannelPointRedemption(viewer: ViewerInfo,             // alert:channel_point_redemption
                                  rewardName: string, rewardCost: int)
    | CreditsData(credits: CreditsPayload)                        // credits:data

  /** A decoded frame as an overlay sees it. Besides the `WSEvent` union the
      server also writes `system:welcome` and `pong`, and the goals overlay
      reacts to `goal:lastFollow` / `goal:lastSub`, tags outside the union. */
  datatype Frame =
    | Event(event: WSEvent)
    | Welcome(name: string, version: string, uptime: int)       // system:welcome
    | Pong(timestamp: int)                                      // pong
    | GoalLastFollow(displayName: string)                       // goal:lastFollow
    | GoalLastSub(displayName: string)                          // goal:lastSub
}
