# Castellan event pipeline, modelled in Dafny

Castellan is a set of OBS overlays for a Twitch stream. They cover alerts, chat,
a goals panel, end-of-stream credits, webcam and game frames, and a pause-screen
clip player. A Node server feeds them.

**Server side.** The server receives StreamerBot events and normalises them into
a small `WSEvent` union. It keeps a goal-counter store, a stream-state store, a
clip cache and the credits aggregation. Every WebSocket client that is open
receives each event from the server's hub. A newly connected client first gets a
snapshot: a welcome frame, the two goals, and the last follower and subscriber
names.

**Overlay side.** Each overlay reaches the server through a reconnecting link
with exponential backoff. Each page folds the frames it receives into its own
state:
- the alert queue;
- the chat window;
- the goals map;
- the credits payload.

The pages then compute what they display: a progress bar, durations, uptime, and
the clip counter.

The model has one Dafny module per source file or component. All of them are
immutable datatypes and pure functions, plus one method each for the shuffle and
`getClips`:

- `Shared`: the shared payload types and the wire frames.
- `Streamerbot`: the normaliser, tier parsing, emote filtering and the follow/sub handlers.
- `Goals`, `Stream`, `Clips`, `Credits`: the server stores and the credits aggregation.
- `Broadcaster`: the hub (connect snapshot, fan-out to open clients, ping/pong, client count).
- `Link`: the overlays' reconnecting WebSocket hook.
- `Alerts`, `ChatText`, `ChatPage`, `GoalsPage`, `GuildPanel`, `CreditsPage`,
  `CreditsRoll`, `Frames`, `Pause`: the overlay reducers and display arithmetic.
- `Pipeline`: properties that span the server and the overlays.
- `Text`, `Clock`, `Sorting`, `Wrappers`: the JavaScript string and number
  behaviour the code relies on, the "{h}h{mm}" time format, a stable sort, and `Option`.

Text is a Dafny `string`, a sequence of Unicode characters. The chat
segmentation is the one place that counts positions in a string, and there the
message is its UTF-16 code units (`Text.Utf16`): JavaScript's indices, `length`
and `slice` count those, so an emoji takes two positions.

Anything outside the model is a parameter:
- **Database:** the outcome of the database writes is a `dbOk` flag. Query results are explicit input lists.
- **Files:** a file read is a `FileRead` value. A write is a `Saved` effect.
- **Randomness:** the shuffle's random choices are a `picks` sequence.
- **Time:** timers and clocks are events or arguments.
- **Ids:** fresh ids are counters or arguments.
- **Sound:** played sounds form a trace.

## Model

| member | source | states |
|---|---|---|
| Streamerbot.ExtractViewer | packages/server/src/services/streamerbot.service.ts:66-76 | no viewer for a missing user or an empty `String(id ?? "")`; otherwise the twitchId is that text, the username is login ?? name ?? "", and the displayName is display ?? name ?? login ?? "" |
| Streamerbot.BothUserShapesAgree | packages/server/src/services/streamerbot.service.ts:73-74 | the live `{id, login, name}` record and the test `{id, name, display}` record of the same user give the same viewer |
| Streamerbot.ViewerOrFlat | packages/server/src/services/streamerbot.service.ts:417-422 | the nested `data.user` wins when it yields a viewer; otherwise the flat user_id/user_login/user_name fields are tried |
| Streamerbot.FlatFollow | packages/server/src/services/streamerbot.service.ts:416-423 | a live follow carrying only flat fields still reaches `handleFollow` with that viewer |
| Streamerbot.ParseTier | packages/server/src/services/streamerbot.service.ts:83-93 | a falsy tier gives 1, and no input ever gives 0 |
| Streamerbot.ParseTierNames | packages/server/src/services/streamerbot.service.ts:86-89 | "prime" and "tier 1" give 1, "tier 2" gives 2, "tier 3" gives 3 |
| Streamerbot.ParseTierIgnoresCase | packages/server/src/services/streamerbot.service.ts:85 | the tier text is compared after lower-casing, so a string and its lower-case form parse alike |
| Streamerbot.ParseTierOfNumber | packages/server/src/services/streamerbot.service.ts:84-92 | a numeric tier and its decimal text parse to the same value: 1000, 2000, 3000 name tiers 1-3; other n ≥ 1000 give n/1000; 0 gives 1; anything else is returned unchanged |
| Streamerbot.KnownTierOfNumber | packages/server/src/services/streamerbot.service.ts:87-89 | the named thousands agree with the numeric fallback's n/1000 |
| Streamerbot.ParseTierOutsideRange | packages/server/src/services/streamerbot.service.ts:90-92 | the fallback returns 2.5 for 2500, 5 for 5000 and -5 for -5, outside the tiers 1-3 |
| Streamerbot.DefaultEmote | packages/server/src/services/streamerbot.service.ts:367-373 | missing emote fields default to type "Twitch", indices 0, and each of id, name and imageUrl to the empty string on its own; a present text field is kept as `String` of its value and a present index as it is |
| Streamerbot.NormalizeEmotes | packages/server/src/services/streamerbot.service.ts:366-374 | keeps exactly the defaulted spans whose name and imageUrl are non-empty, and nothing else |
| Streamerbot.NormalizeEmotesAppend | packages/server/src/services/streamerbot.service.ts:367-374 | the filter distributes over concatenation, so input order is preserved |
| Streamerbot.ChatPublishesUsableEmotes | packages/server/src/services/streamerbot.service.ts:356-407 | a chat message during a stream publishes one `chat:message` with the text and the filtered emotes; emotes are undefined exactly when no span is usable |
| Streamerbot.NormalizeAction | packages/server/src/services/streamerbot.service.ts:687-755 | a Raw.Action yields a handler call exactly when it has arguments, a truthy isTest, one of the seven trigger names and a user that yields a viewer; the call is for that viewer |
| Streamerbot.RawActionNeedsTestFlag | packages/server/src/services/streamerbot.service.ts:689-695 | without a truthy isTest and triggerName, Raw.Action does nothing |
| Streamerbot.Normalize | packages/server/src/services/streamerbot.service.ts:356-488 | every handler call carries a non-empty twitchId; unknown events do nothing; a chat message or redemption reaches its handler exactly when its user yields a viewer; a live follow, sub, resub, raid or cheer reaches its handler exactly when the nested or flat user yields one, with sub_tier ?? subTier parsed and one month for a sub, cumulativeMonths ?? cumulative_months ?? 1 for a resub, viewerCount ?? viewers ?? 0 for a raid and bits ?? 0 for a cheer; a Raw.Action goes through the test-trigger switch |
| Streamerbot.LiveAndTestFollowAgree | packages/server/src/services/streamerbot.service.ts:701-703 | a test "Follow" trigger and a live Twitch.Follow of the same user make the same call |
| Streamerbot.UnknownTriggerIgnored | packages/server/src/services/streamerbot.service.ts:752-753 | a test trigger named other than the seven cases does nothing |
| Streamerbot.LiveAndTestSubAgree | packages/server/src/services/streamerbot.service.ts:711-717 | a "Subscription" test trigger and a live Twitch.Sub of the same user and tier make the same call: the parsed tier and one month |
| Streamerbot.LiveAndTestReSubAgree | packages/server/src/services/streamerbot.service.ts:719-726 | a "Resubscription" test trigger and a live Twitch.ReSub with the same tier and cumulative months make the same call; missing months count as 1 |
| Streamerbot.LiveAndTestCheerAgree | packages/server/src/services/streamerbot.service.ts:706-709 | a "Cheer" test trigger and a live Twitch.Cheer with the same bits make the same call; missing bits count as 0 |
| Streamerbot.LiveAndTestRaidAgree | packages/server/src/services/streamerbot.service.ts:738-741 | a "Raid" test trigger and a live Twitch.Raid with the same viewer count make the same call; a missing count is 0 |
| Streamerbot.LiveAndTestRewardAgree | packages/server/src/services/streamerbot.service.ts:743-750 | a "Reward Redemption" test trigger and a live redemption with the same name and cost make the same call; the name defaults to "Inconnu", the cost to 0 |
| Streamerbot.GiftSubTriggerDefaults | packages/server/src/services/streamerbot.service.ts:728-736 | a "Gift Subscription" test trigger without details gifts to "Inconnu", tier 1, one sub, not anonymous |
| Streamerbot.AlertOf | packages/server/src/services/streamerbot.service.ts:120-123 | each handler broadcasts the alert of its own kind, for the viewer it was given |
| Streamerbot.Handle | packages/server/src/services/streamerbot.service.ts:99-135 | no current stream, or a failed database step, means no state change and nothing broadcast; otherwise the alert goes out first; only follow and sub touch the goals |
| Streamerbot.FollowMovesGoal | packages/server/src/services/streamerbot.service.ts:120-131 | a follow publishes `alert:follow` and then followers at previous+1 with the target unchanged; it records lastFollow and saves; the subscribers goal is untouched |
| Streamerbot.SubMovesGoal | packages/server/src/services/streamerbot.service.ts:137-174 | a sub publishes `alert:sub` and then subscribers at previous+1; followers are untouched and lastSub is recorded |
| Streamerbot.Dispatch | packages/server/src/services/streamerbot.service.ts:356-488 | an event that does not normalise, or one outside a stream, changes nothing; dispatch never publishes a clear, dice or credits event |
| Streamerbot.HandlePublishes | packages/server/src/services/streamerbot.service.ts:99-302 | a handler publishes only its own alert and goal updates |
| Goals.LoadConfig | packages/server/src/services/goals.service.ts:46-71 | a saved file overrides each field it has and keeps the rest; with no file the current state is saved; an unreadable file changes nothing |
| Goals.LoadSavedRoundTrip | packages/server/src/services/goals.service.ts:50-62 | loading a file written from a state with both names restores that state, whatever was loaded before |
| Goals.UpdateGoalsConfig | packages/server/src/services/goals.service.ts:94-109 | exactly the given target and current fields change, the names stay; the new state is saved, then all goals are re-broadcast |
| Goals.EventsOfPublish | packages/server/src/services/goals.service.ts:148-193 | the events of a published batch are that batch, in order |
| Goals.IncrementFollowerCount | packages/server/src/services/goals.service.ts:112-116 | followers.current rises by exactly 1 and the new value is returned; the state is saved and nothing else changes |
| Goals.IncrementSubscriberCount | packages/server/src/services/goals.service.ts:119-123 | subscribers.current rises by exactly 1 and the new value is returned; the state is saved and nothing else changes |
| Goals.SetLastFollow | packages/server/src/services/goals.service.ts:126-129 | only lastFollow changes, then the state is saved |
| Goals.SetLastSub | packages/server/src/services/goals.service.ts:132-135 | only lastSub changes, then the state is saved |
| Goals.SyntheticViewer | packages/server/src/services/goals.service.ts:171-175 | twitchId "", the name as displayName and its lower-case form as username |
| Goals.LastNameAlerts | packages/server/src/services/goals.service.ts:167-192 | one `alert:follow` if lastFollow is truthy, then one `alert:sub` with tier 1 and months 0 if lastSub is truthy |
| Goals.GoalsInitPayload | packages/server/src/services/goals.service.ts:196-209 | exactly two payloads: followers, then subscribers, with the current values |
| Goals.BroadcastAllGoals | packages/server/src/services/goals.service.ts:148-193 | the followers and then the subscribers `goal:update`, then exactly the last-name alerts: the follow (if that name is truthy) before the sub (if truthy), each for the synthetic viewer with twitchId "", the name lower-cased as username and as display name, and the sub with tier 1 and months 0 |
| Stream.LoadState | packages/server/src/services/stream.service.ts:35-53 | each saved field wins, and a missing field falls back to the default rather than the current value; no file or an unreadable one leaves the state as it is |
| Stream.LoadSavedRoundTrip | packages/server/src/services/stream.service.ts:40-45 | loading a saved state restores it exactly |
| Stream.SetStreamInfo | packages/server/src/services/stream.service.ts:70-75 | only the given fields change, viewerCount stays, and the state is saved |
| Stream.SetViewerCount | packages/server/src/services/stream.service.ts:77-81 | only viewerCount changes, and nothing is saved |
| Stream.ClearStreamState | packages/server/src/services/stream.service.ts:83-86 | back to "Just Chatting", "", no start and 0 viewers, and the state is saved |
| Stream.StreamInfoOf | packages/server/src/services/stream.service.ts:90-97 | null exactly when startedAt is missing or empty; otherwise the game, title and start |
| Stream.StreamViewersOf | packages/server/src/services/stream.service.ts:99-103 | the current viewer count |
| Stream.InfoLifecycle | packages/server/src/services/stream.service.ts:70-97 | starting a stream makes its info available; a viewer-count change leaves the info alone; clearing removes it and zeroes the count |
| Clips.Swap | packages/server/src/services/clips.service.ts:28 | exchanges two positions, keeps every other one, and is a permutation |
| Clips.FisherYates | packages/server/src/services/clips.service.ts:24-31 | the downward swap loop yields a permutation of its input |
| Clips.FisherYatesStep | packages/server/src/services/clips.service.ts:26-29 | one iteration swaps position i with a chosen j ≤ i, then continues with i-1 |
| Clips.Shuffle | packages/server/src/services/clips.service.ts:24-31 | returns a permutation of a copy; the input is a value and is not changed |
| Clips.FisherYatesStill | packages/server/src/services/clips.service.ts:26-29 | when every choice is j = i, the shuffle is the identity, so the input order is one possible outcome |
| Clips.SyncClips | packages/server/src/services/clips.service.ts:40-47 | replaces the cache wholesale, stamps syncedAt, and returns the new count |
| Clips.ClipsCount | packages/server/src/services/clips.service.ts:68-70 | the cache length |
| Clips.SyncThenRead | packages/server/src/services/clips.service.ts:40-75 | the count after a sync is the count the sync returned, and syncedAt is the sync time |
| Clips.GetClips | packages/server/src/services/clips.service.ts:53-65 | a limit in (0, count) gives that many cached clips; otherwise a permutation of the whole cache |
| Credits.KeepEvents | packages/server/src/services/credits.service.ts:42-44 | the broadcaster filter keeps exactly the events whose viewer is not the broadcaster |
| Credits.KeepSessions | packages/server/src/services/credits.service.ts:42-44 | the broadcaster filter on viewer sessions |
| Credits.KeepMessages | packages/server/src/services/credits.service.ts:42-44 | the broadcaster filter on chat messages |
| Credits.Followers | packages/server/src/services/credits.service.ts:65-67 | exactly the viewers of follow events that have one |
| Credits.Subscribers | packages/server/src/services/credits.service.ts:74-79 | every sub event with a viewer gives an entry with its stored tier, or 1 when there is none, and every entry comes from such an event |
| Credits.RaidOf | packages/server/src/services/credits.service.ts:85-94 | with a truthy stored fromChannel the raider is twitchId "", that name lower-cased as username and the name as displayName, otherwise "inconnu"/"Inconnu"; fromChannel is the stored one ?? "Inconnu"; viewers is the stored count ?? 0 |
| Credits.RaiderUsernameLowered | packages/server/src/services/credits.service.ts:88-90 | a raider's username is always its display name lower-cased |
| Credits.EmptyChannelRaid | packages/server/src/services/credits.service.ts:88-91 | an empty stored channel is falsy for the raider but kept by `??`: raider "Inconnu", fromChannel "" |
| Credits.Raiders | packages/server/src/services/credits.service.ts:82-94 | one entry per raid event, in order, with no broadcaster filter |
| Credits.TopChatters | packages/server/src/services/credits.service.ts:97-106 | the ten sessions with messages that have the most messages (all of them when fewer than ten), in descending count with their counts; no entry appears more often than its session does; any active session left out has no more messages than the last one listed |
| Credits.TopSessions | packages/server/src/services/credits.service.ts:97-102 | sorting the active sessions by count descending and taking 10 keeps ten of them (or all), each at most as often as it occurs, in descending order, and leaves out none with more messages than the last one kept |
| Credits.TopOfSorted | packages/server/src/services/credits.service.ts:99-101 | the first ten of a descending permutation of the active sessions are a sub-multiset of them of size ten (or all), in order, and no session left out has more messages than the tenth |
| Credits.ActiveSessions | packages/server/src/services/credits.service.ts:98 | exactly the sessions with messageCount > 0 |
| Credits.Lurkers | packages/server/src/services/credits.service.ts:171-175 | exactly the viewers of sessions with no messages |
| Credits.AddTo | packages/server/src/services/credits.service.ts:140-145 | adds the amount to the viewer's entry, or appends a new entry for a new twitchId |
| Credits.Aggregate | packages/server/src/services/credits.service.ts:135-146 | grouping yields one entry per twitchId |
| Credits.AggregateSums | packages/server/src/services/credits.service.ts:135-146 | each entry holds the sum of that viewer's amounts |
| Credits.AggregateIds | packages/server/src/services/credits.service.ts:114-126 | an entry exists exactly for each twitchId that contributed |
| Credits.Ranked | packages/server/src/services/credits.service.ts:147-148 | a permutation in descending amount |
| Credits.Contributions | packages/server/src/services/credits.service.ts:115-116 | events without a viewer are skipped, and every event with a viewer contributes its worth for that viewer |
| Credits.Leaderboard | packages/server/src/services/credits.service.ts:135-148 | descending, one entry per viewer, each amount is that viewer's total, and every viewer with an event has an entry |
| Credits.DiceCountsRolls | packages/server/src/services/credits.service.ts:114-128 | a dice entry's count is the number of that viewer's dice events |
| Credits.DiceEntryPerRoller | packages/server/src/services/credits.service.ts:114-128 | a viewer with a dice event has exactly one dice entry, counting their events |
| Credits.LeaderboardFromRows | packages/server/src/services/credits.service.ts:135-168 | every leaderboard viewer had an event |
| Credits.RoundMinutes | packages/server/src/services/credits.service.ts:56-58 | the minutes are the milliseconds divided by 60000, to the nearest minute |
| Wrappers.NonEmpty | packages/server/src/services/credits.service.ts:214-221 | an empty list becomes undefined, and any other list is kept |
| Credits.First | packages/server/src/services/credits.service.ts:194-196 | the first element, or undefined for an empty list |
| Credits.FirstMessage | packages/server/src/services/credits.service.ts:178-182 | the viewer of an earliest message, or undefined when there are no messages |
| Credits.LongestWatch | packages/server/src/services/credits.service.ts:199-206 | a longest session, reported only when its watchTime is positive |
| Credits.BuildCredits | packages/server/src/services/credits.service.ts:40-233 | title default "Stream sans titre", rounded duration, broadcaster-filtered totals, peakViewers or totalViewers; each list (followers, subscribers, raiders, top chatters, dice, bits, channel points, lurkers) is built from the broadcaster-filtered rows and is undefined exactly when empty; firstMessage is the first kept message; top stats are the first of each list |
| Credits.BroadcasterExcluded | packages/server/src/services/credits.service.ts:36-44 | no list or stat of the payload except the raiders names the broadcaster, the longest watch included |
| Credits.LeaderboardExcludes | packages/server/src/services/credits.service.ts:110-168 | leaderboards built from filtered events never name the broadcaster |
| Broadcaster.Snapshot | packages/server/src/ws/broadcaster.ts:45-86 | welcome, then the followers goal, then the subscribers goal, then exactly the last-name alerts: the follow for the last follower before the tier-1, 0-month sub for the last subscriber, each only when that name is truthy |
| Broadcaster.SnapshotIsWelcomeThenGoals | packages/server/src/ws/broadcaster.ts:56-86 | the connect snapshot is the welcome frame followed by exactly what `broadcastAllGoals` publishes |
| Broadcaster.Connect | packages/server/src/ws/broadcaster.ts:38-59 | a new open client is added whose outbox is the snapshot |
| Broadcaster.ConnectKeepsIdsDistinct | packages/server/src/ws/broadcaster.ts:38-40 | connecting a fresh client keeps client ids distinct |
| Broadcaster.OnMessage | packages/server/src/ws/broadcaster.ts:89-104 | a JSON ping gets one pong on that client alone; any other input, JSON or not, changes nothing |
| Broadcaster.Broadcast | packages/server/src/ws/broadcaster.ts:130-150 | before initialisation nothing happens; after it, exactly the open clients receive the event, and the others keep their outboxes |
| Broadcaster.DeliverCount | packages/server/src/ws/broadcaster.ts:137-144 | the frames sent number exactly the open clients |
| Broadcaster.BroadcastToOpen | packages/server/src/ws/broadcaster.ts:139-143 | an open client's outbox grows by exactly the event |
| Broadcaster.BroadcastOrder | packages/server/src/ws/broadcaster.ts:136-144 | two broadcasts reach an open client in order |
| Broadcaster.OpenClientSeesAllEvents | packages/server/src/ws/broadcaster.ts:130-150 | an open client receives every broadcast event, in order |
| Broadcaster.SetReadyState | packages/server/src/ws/broadcaster.ts:125-127 | a client may stop being open while it is still listed: only that client's ready state changes, and every client keeps its id, its outbox and its place |
| Broadcaster.Disconnect | packages/server/src/ws/broadcaster.ts:107-109 | a closed client leaves the set and the others stay |
| Broadcaster.ClientCount | packages/server/src/ws/broadcaster.ts:156-158 | the number of clients, or 0 before initialisation |
| Link.Mount | packages/overlays/src/hooks/useWebSocket.ts:29-47 | the first render opens one socket with the 1000 ms delay |
| Link.NextDelay | packages/overlays/src/hooks/useWebSocket.ts:72 | doubles the delay, capped at 30000 |
| Link.Step | packages/overlays/src/hooks/useWebSocket.ts:42-90 | every event keeps the delay within [1000, 30000] and the timer consistent; deliveries only grow, and only the frozen handler is called; a socket is created only when the timer fires |
| Link.OpenResetsDelay | packages/overlays/src/hooks/useWebSocket.ts:49-54 | an open marks the link connected and resets the delay to 1000 |
| Link.CloseSchedulesReconnect | packages/overlays/src/hooks/useWebSocket.ts:65-75 | a close while mounted disconnects and schedules a reconnect after the current delay |
| Link.TimerReconnects | packages/overlays/src/hooks/useWebSocket.ts:70-74 | the timer doubles the delay (capped) and opens exactly one socket |
| Link.ErrorReconnectsThroughClose | packages/overlays/src/hooks/useWebSocket.ts:77-80 | an error and then the close does what the close alone would |
| Link.MalformedFrameDropped | packages/overlays/src/hooks/useWebSocket.ts:56-63 | a frame that does not parse reaches no handler and changes nothing |
| Link.FrameDelivered | packages/overlays/src/hooks/useWebSocket.ts:56-59 | a parsed frame on an open socket goes to the frozen handler |
| Link.BackoffWaits | packages/overlays/src/hooks/useWebSocket.ts:65-74 | the k-th wait of an unbroken run of failures is min(delay·2^k, 30000) |
| Link.BackoffSchedule | packages/overlays/src/hooks/useWebSocket.ts:20-31 | from the first render the waits are 1, 2, 4, 8, 16, 30, 30 seconds |
| Link.UnmountSilences | packages/overlays/src/hooks/useWebSocket.ts:86-90 | after cleanup no timer is pending and no socket is ever created again, whatever the socket reports |
| Link.UnmountIdempotent | packages/overlays/src/hooks/useWebSocket.ts:86-90 | running cleanup twice is the same as running it once |
| Link.HandlerFrozen | packages/overlays/src/hooks/useWebSocket.ts:36 | every frame is delivered to the handler captured at the first render, however often a new one is rendered |
| Link.FirstHandlerReceivesAll | packages/overlays/src/hooks/useWebSocket.ts:36 | from mount on, every delivery goes to the first handler |
| Alerts.PlaySound | packages/overlays/src/hooks/useSound.ts:44-60 | a catalogued sound is played once; an unknown key plays nothing |
| Alerts.ShowNext | packages/overlays/src/pages/AlertsPage.tsx:44-60 | an empty queue clears the popup and goes idle; otherwise the head is dequeued, shown, its sound played, and the 5000 ms timer set |
| Alerts.Enqueue | packages/overlays/src/pages/AlertsPage.tsx:67-75 | appends at the back; shows it at once only when idle, and otherwise leaves the popup as it is |
| Alerts.Expire | packages/overlays/src/pages/AlertsPage.tsx:57-59 | the timeout shows the next queued alert, or idles on an empty queue |
| Alerts.AlertOf | packages/overlays/src/pages/AlertsPage.tsx:79-134 | only follow, sub, raid, bits and dice events give a popup, and its sound is its kind |
| Alerts.HandleEvent | packages/overlays/src/pages/AlertsPage.tsx:77-138 | a popup-worthy event extends the shown-then-queued line by its alert; any other event changes nothing |
| Alerts.FollowAlertText | packages/overlays/src/pages/AlertsPage.tsx:80-89 | the title is "Nouveau Follower !", the message is the displayName, and the sound is "follow" |
| Alerts.SubAlertTitle | packages/overlays/src/pages/AlertsPage.tsx:96 | the title is "Sub Tier N !" |
| Alerts.IgnoredAlerts | packages/overlays/src/pages/AlertsPage.tsx:79-134 | gift subs and reward redemptions do not pop up |
| Alerts.NoPreemption | packages/overlays/src/pages/AlertsPage.tsx:67-75 | while a popup is showing, a new event neither replaces it nor restarts its timer |
| Alerts.BurstShownInOrder | packages/overlays/src/pages/AlertsPage.tsx:44-75 | three quick alerts show one at a time, in arrival order, then the page idles |
| Alerts.PlayedSoundsKnown | packages/overlays/src/pages/AlertsPage.tsx:55 | only catalogued sounds are ever played |
| Alerts.ArrivalOrder | packages/overlays/src/pages/AlertsPage.tsx:67-134 | popups are shown first-in first-out, in the order their events arrived |
| ChatText.ParseMessageParts | packages/overlays/src/components/chat/ChatMessage.tsx:28-59 | on the message's UTF-16 code units, as `slice` and `length` count them: no emotes give one text part equal to the content; otherwise each emote gives one part, sorted by startIndex, the emotes form a permutation of the input, and no empty text part appears |
| ChatText.MessageParts | packages/overlays/src/components/chat/ChatMessage.tsx:67-68 | the component parses the code units of the message's content; the emote parts are in start order, and well-placed spans give back the content |
| ChatText.AstralShift | packages/overlays/src/components/chat/ChatMessage.tsx:43-56 | an emoji takes two positions: after "😀 ", the span [2, 6] starts at the space, and the last "a" of "Kappa" stays text |
| ChatText.SegmentEmotes | packages/overlays/src/components/chat/ChatMessage.tsx:41-51 | the emote parts are exactly the sorted emotes, in order |
| ChatText.SegmentNoEmpty | packages/overlays/src/components/chat/ChatMessage.tsx:43-56 | text parts are emitted only when non-empty |
| ChatText.BeforeText | packages/overlays/src/components/chat/ChatMessage.tsx:43-46 | the text before an emote is the content from the cursor to its start |
| ChatText.TrailingText | packages/overlays/src/components/chat/ChatMessage.tsx:54-56 | the trailing part is the rest of the content after the cursor |
| ChatText.SegmentRoundTrip | packages/overlays/src/components/chat/ChatMessage.tsx:41-56 | for well-placed spans, the parts spell the content from the cursor on |
| ChatText.ParseRoundTrip | packages/overlays/src/components/chat/ChatMessage.tsx:28-59 | for in-bounds, ordered, non-overlapping spans, the text parts and the emote slices spell the content |
| ChatText.OneEmote | packages/overlays/src/components/chat/ChatMessage.tsx:41-56 | one inner emote gives text, the emote, and text, with the end index inclusive |
| ChatText.DocumentedExample | packages/overlays/src/components/chat/ChatMessage.tsx:19-22 | "GG kavali1Hype bien joué" (24 code units) splits into "GG ", the emote and " bien joué" when endIndex is 13; the endIndex 15 of the comment eats two characters |
| ChatPage.KeepRecent | packages/overlays/src/pages/ChatPage.tsx:29 | the last 30 entries, or all of them if fewer |
| ChatPage.HandleEvent | packages/overlays/src/pages/ChatPage.tsx:23-38 | a message is appended and the oldest dropped past 30; a clear empties the list; any other frame leaves it |
| ChatPage.KeepRecentTwice | packages/overlays/src/pages/ChatPage.tsx:26-30 | trimming after each append is the same as trimming once at the end |
| ChatPage.ShowsRecentSinceClear | packages/overlays/src/pages/ChatPage.tsx:18-37 | from an empty page, the list is the 30 most recent messages since the last clear, in arrival order |
| ChatPage.OldestDropped | packages/overlays/src/pages/ChatPage.tsx:28-29 | the 31st message pushes out the oldest |
| GoalsPage.HandleEvent | packages/overlays/src/pages/GoalsPage.tsx:21-52 | `goal:update` replaces its kind's entry; follow alerts and `goal:lastFollow` set lastFollow; sub and gift-sub alerts and `goal:lastSub` set lastSub |
| GoalsPage.GoalUpdateIsolated | packages/overlays/src/pages/GoalsPage.tsx:23-28 | a goal update touches only its own kind's entry and neither name |
| GoalsPage.OtherFramesIgnored | packages/overlays/src/pages/GoalsPage.tsx:22-51 | every other frame leaves the view unchanged |
| GuildPanel.Bars | packages/overlays/src/components/goals/GuildPanel.tsx:54-62 | a missing goal shows 0/1000 for followers and 0/50 for subscribers |
| GuildPanel.Pct | packages/overlays/src/components/goals/GuildPanel.tsx:262 | 0 for a non-positive target; otherwise the progress as a percentage, capped at 100 |
| GuildPanel.Plaque | packages/overlays/src/components/goals/GuildPanel.tsx:242 | a missing or empty name shows "—" |
| GuildPanel.InitialPanel | packages/overlays/src/components/goals/GuildPanel.tsx:54-62 | before any frame both bars are empty at their defaults and the plaque shows "—" |
| GuildPanel.CompleteBar | packages/overlays/src/components/goals/GuildPanel.tsx:262-283 | a reached goal fills the bar and does not pulse |
| GuildPanel.LowBarPulses | packages/overlays/src/components/goals/GuildPanel.tsx:278-296 | under a quarter of the goal the HP bar pulses; the mana bar never does |
| CreditsPage.FormatDuration | packages/overlays/src/pages/CreditsPage.tsx:14-19 | "{h}h{mm}" from one hour on, else "{m} min"; a negative input keeps JavaScript's truncating remainder |
| CreditsPage.DurationRoundTrip | packages/overlays/src/pages/CreditsPage.tsx:14-19 | the text reads back as the same number of minutes |
| CreditsPage.DurationExamples | packages/overlays/src/pages/CreditsPage.tsx:17-18 | 84 minutes is "1h24" and 5 is "5 min" |
| CreditsPage.SubViews | packages/overlays/src/pages/CreditsPage.tsx:38-41 | one entry per subscriber, in order, named by displayName, with type "Tier {tier}" |
| CreditsPage.RaiderViews | packages/overlays/src/pages/CreditsPage.tsx:42-45 | one entry per raid, in order, with channel and viewers |
| CreditsPage.CheerViews | packages/overlays/src/pages/CreditsPage.tsx:46-49 | the cheers are the bits leaderboard, in order |
| CreditsPage.MapCreditsData | packages/overlays/src/pages/CreditsPage.tsx:22-51 | game copies the title; the duration is formatted; topChatter and firstMessage are null exactly when absent; an absent list becomes empty; followers show display names, subscribers a name and "Tier n", raiders channel and viewers, cheers name and bits, each list entry by entry in order |
| CreditsPage.TierLabel | packages/overlays/src/pages/CreditsPage.tsx:40 | an integral tier n reads "Tier n" |
| CreditsPage.HandleEvent | packages/overlays/src/pages/CreditsPage.tsx:56-60 | only `credits:data` sets the credits |
| CreditsPage.View | packages/overlays/src/pages/CreditsPage.tsx:64-69 | nothing is rendered until credits arrive, and then the mapped data |
| CreditsPage.BlankUntilCredits | packages/overlays/src/pages/CreditsPage.tsx:53-67 | any run of frames without `credits:data` leaves the page blank |
| CreditsRoll.Sections | packages/overlays/src/components/credits/CreditsRoll.tsx:22-127 | header first, footer last, the sections in their fixed order, and exactly the present ones |
| CreditsRoll.KeepCovers | packages/overlays/src/components/credits/CreditsRoll.tsx:63-118 | an optional section appears exactly when its data is present and non-empty |
| CreditsRoll.LineCount | packages/overlays/src/components/credits/CreditsRoll.tsx:20-127 | at least 13 lines: the 4 + 6 + 3 of the fixed sections |
| CreditsRoll.LineCountBySections | packages/overlays/src/components/credits/CreditsRoll.tsx:35-127 | the count is the sum of the lines of the sections laid out |
| CreditsRoll.ScrollDuration | packages/overlays/src/components/credits/CreditsRoll.tsx:130 | two seconds per line laid out, so at least 26 s |
| Clock.RoundTrip | packages/overlays/src/components/credits/CreditsRoll.tsx:157-162 | the "{h}h{mm}" / "{m}{unit}" text reads back as the number of minutes |
| Clock.PadValue | packages/overlays/src/pages/CreditsPage.tsx:17 | `padStart(2, "0")` on the minutes gives two digits with the same value |
| Frames.UptimeAsWritten | packages/overlays/src/components/frame/WebcamFrame.tsx:76-113 | a missing start gives no uptime; an unparseable one gives "NaNmin" |
| Frames.NaNUptimeShown | packages/overlays/src/components/frame/WebcamFrame.tsx:50 | the frame shows "En quête depuis NaNmin" for a start time that is not a date |
| Frames.Uptime | packages/overlays/src/components/frame/GameFrame.tsx:81-117 | an uptime exists exactly when the start is a date no later than now, and it reads back as the whole minutes elapsed |
| Frames.UptimeAgrees | packages/overlays/src/components/frame/GameFrame.tsx:85-108 | wherever the start is a date, the corrected uptime equals the original |
| Frames.UptimeExamples | packages/overlays/src/components/frame/WebcamFrame.tsx:95-103 | 84 min 59 s gives "1h24" and 59 s gives "0min" |
| Frames.UptimeText | packages/overlays/src/components/frame/WebcamFrame.tsx:50 | "En quête depuis {uptime}", or "En préparation..." without one |
| Frames.UptimeLine | packages/overlays/src/components/frame/WebcamFrame.tsx:23-50 | the frame shows an uptime exactly when the stream info has a start that is a date not in the future |
| Frames.Banner | packages/overlays/src/components/frame/WebcamFrame.tsx:40 | the game, or "Just Chatting" without stream info |
| Frames.ViewerLabel | packages/overlays/src/components/frame/WebcamFrame.tsx:61 | "Aventurier", plural exactly when the count exceeds 1 |
| Frames.TwitchName | packages/overlays/src/components/frame/GameFrame.tsx:27 | defaults to "KavalieroGameDev" |
| Pause.LocalClips | packages/overlays/src/components/pause/PausePlayer.tsx:35 | exactly the clips with a videoUrl, in order |
| Pause.OnFetch | packages/overlays/src/components/pause/PausePlayer.tsx:29-53 | a good list with local videos replaces the clips and restarts at index 0, loaded and error-free; any other outcome only sets the error |
| Pause.GoToNext | packages/overlays/src/components/pause/PausePlayer.tsx:61-65 | a no-op on an empty list; otherwise fade and schedule the advance |
| Pause.AdvanceIndex | packages/overlays/src/components/pause/PausePlayer.tsx:66-77 | the index moves to (i+1) mod count and stays below the count; wrapping around refetches |
| Pause.StepKeepsIndexInRange | packages/overlays/src/components/pause/PausePlayer.tsx:61-89 | the index stays on a clip |
| Pause.PlayOneAdvances | packages/overlays/src/components/pause/PausePlayer.tsx:82-84 | a clip ending and its fade move to the next clip |
| Pause.FailedVideoSkipped | packages/overlays/src/components/pause/PausePlayer.tsx:86-89 | a failed video, after its 500 ms wait, is skipped like one that ended |
| Pause.PlaysInLaps | packages/overlays/src/components/pause/PausePlayer.tsx:66-77 | n clips played from index i land at (i+n) mod count, after (i+n) div count refetches |
| Pause.Render | packages/overlays/src/components/pause/PausePlayer.tsx:106-180 | the waiting screen exactly when there is an error or nothing is loaded, with the error line only on error; otherwise the current clip and "{index+1} / {count}" |
| Pause.FirstLoad | packages/overlays/src/components/pause/PausePlayer.tsx:29-57 | a good first load shows the first local clip as "1 / n"; a failed one keeps the waiting screen with the error line |
| Pipeline.SnapshotPopups | packages/overlays/src/pages/AlertsPage.tsx:80-99 | of the connect snapshot, only the name alerts become popups: the last follower's, then the last subscriber's tier-1 sub |
| Pipeline.ReconnectReplaysPopups | packages/overlays/src/hooks/useWebSocket.ts:65-74 | from any alerts-page state (a reconnect does not remount it), the shown-and-queued line keeps what it had and gains exactly one popup per truthy name: the follow with the name as message, then the sub titled "Sub Tier 1 !" with message "<name> (0 mois)" |
| Pipeline.ReconnectRestoresGoals | packages/overlays/src/pages/GoalsPage.tsx:21-50 | from the connect snapshot alone, the goals page holds both goals and the truthy last names |
| Sorting.SortBy | packages/overlays/src/components/chat/ChatMessage.tsx:37 | the result is ordered by the key and is a permutation of the input |
| Sorting.SortBySorted | packages/overlays/src/components/chat/ChatMessage.tsx:37 | an already ordered list is left as it is |
| Sorting.SortByStable | packages/overlays/src/components/chat/ChatMessage.tsx:37 | the sort is stable, as ECMAScript requires: the elements sharing a key keep their relative order |
| Text.ParseIntRoundTrip | packages/server/src/services/streamerbot.service.ts:90 | `parseInt` of an integer's decimal text gives back the integer |
| Text.ToLowerIdempotent | packages/server/src/services/streamerbot.service.ts:85 | lower-casing twice is lower-casing once |
| Text.DigitsRoundTrip | packages/overlays/src/pages/CreditsPage.tsx:17-18 | a number's decimal text reads back as the number |
| Text.TruncRem | packages/overlays/src/pages/CreditsPage.tsx:16 | JavaScript's `%` on a negative number gives a remainder in (-b, 0] |
| Text.PadStart2 | packages/overlays/src/pages/CreditsPage.tsx:17 | pads with leading zeros to two characters and keeps the text at the end |
| Text.JsSlice | packages/overlays/src/components/chat/ChatMessage.tsx:44 | on in-range indices, `slice` is the subsequence of code units |
| Text.Utf16Bmp | packages/overlays/src/components/chat/ChatMessage.tsx:44 | text inside the Basic Multilingual Plane has one code unit per character, equal to it, so positions agree with characters |
| Text.Utf16Length | packages/overlays/src/components/chat/ChatMessage.tsx:55 | `length` is the number of characters plus one for each character outside the Basic Multilingual Plane |

## Left out

- Text.ToLower: only ASCII letters are lower-cased; JavaScript's full Unicode case mapping is not modelled.
- Text.JsSlice: its contract covers in-range indices only; the clamping of negative and oversized indices is in the definition, not stated.
- Stream.LoadState: a saved `null` and a missing field are both `None`; JSON files are values, not I/O.
- Database access through Prisma: queries are the input lists of `Credits.BuildCredits`. The `findOrCreateViewer` and session writes in the handlers are one `dbOk` flag. The database's order among equal keys is taken to be the input order.
- Credits: the title of a stream, `Date` arithmetic and ISO strings are inputs. `toViewerInfo` is the identity on `ViewerInfo`.
- Streamerbot: `Custom.Event` dice handling, `Twitch.StreamUpdate`, `PresentViewers` and the stream start/end events are not modelled. Gift, raid, cheer and reward handlers only publish their alert; their database writes are the `dbOk` flag.
- Streamerbot: the raid extra field and the debug file logger are left out.
- Streamerbot.ParseTierOfNumber: numbers are unbounded integers and `String(n)` is plain decimal text; JavaScript writes 1e21 and above in exponent form (`parseTier(1e21)` gives 1) and is inexact above 2^53, so the round trip is the source's behaviour only below those bounds.
- Streamerbot.Normalize: `Number(...)` coercions are modelled as integers; a NaN index from a malformed emote is not represented.
- Goals.UpdateGoalsConfig: a field sent as `null` is treated as omitted; the source's `!== undefined` test would store the `null`.
- Stream.SetStreamInfo: a field sent as `null` is treated as omitted; the source's `!== undefined` test would store the `null`.
- Goals and stream stores: file reads and writes are a `FileRead` input and `Saved` effects; write failures are not modelled.
- Alerts: audio playback is a trace of played keys; `audio.play()` rejection and the 0.7 volume are left out.
- Alerts.SubAlertTitle: only integral tiers are rendered; JavaScript's formatting of fractional numbers (a tier of 2.5) is not modelled.
- Clips: `TwitchClip` is reduced to id, title and videoUrl; the other fields are only displayed. The clip store's `syncedAt` is `None` until the first sync.
- Link: React's hook and render mechanics are reduced to the events `Rerender` and `Unmount`.
- Frames: the 30-second `setInterval` only recomputes the same function of `now`.
- Pause.StepKeepsIndexInRange: assumes no new clip list arrives while a fade or retry is pending. A refetch that lands mid-fade can shorten the list under a captured count.
- Pause: `data.ok` true with an empty clip list takes the same branch as a failure; the `muted` toggle on play and the element keys are not modelled.
- GuildPanel: numbers are exact reals, so floating-point rounding of the percentage is not modelled; colours and CSS are left out.
- Express routes, the server entry point, the particles, `CreditsOverlay`, `ChatOverlay`, `AlertPopup`, `NameEntry`, `LiveCodingFrame` and the page wrappers are rendering or plumbing with no state to model.

## Findings

| source | as written | input that shows it | evidently intended | confidence | as-written member | corrected member |
|---|---|---|---|---|---|---|
| packages/overlays/src/components/frame/WebcamFrame.tsx:86-103 | an unparseable `startedAt` (in both frames; GameFrame.tsx repeats the code) makes `diffMs` NaN; `NaN < 0` is false and `hours > 0` is false, so the hook returns "NaNmin" | stream info with startedAt "soon": the frame reads "En quête depuis NaNmin" | no uptime, so the frame shows "En préparation..." | not executed | Frames.UptimeAsWritten, Frames.NaNUptimeShown | Frames.Uptime, Frames.UptimeAgrees |
