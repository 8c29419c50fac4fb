/** The goal-counter store (`goals.service.ts`): follower and subscriber goals,
    the last follower and subscriber names, persistence after every mutation,
    and the goal snapshot that is broadcast.

    The JSON file is an abstract port: a load receives what the file held, and
    every write appears as a `Saved` effect carrying the state written out. */
module Goals {
  import opened Wrappers
  import opened Shared
  import Text

  datatype GoalState = GoalState(current: int, target: int)

  datatype GoalsConfig = GoalsConfig(
    followers: GoalState,
    subscribers: GoalState,
    lastFollow: Option<string>,
    lastSub: Option<string>)

  /** What the store does besides changing its state, in order. */
  datatype Effect =
    | Saved(snapshot: GoalsConfig)     // saveConfig() wrote this state
    | Published(event: WSEvent)        // broadcast(event)

  datatype Step = Step(state: GoalsConfig, effects: seq<Effect>)

  /** An increment: the new state, the count it returns and its effects. */
  datatype Counted = Counted(state: GoalsConfig, count: int, effects: seq<Effect>)

  /** The state before any load. */
  const Initial := GoalsConfig(GoalState(0, 1000), GoalState(0, 50), None, None)

  // --- Loading ---------------------------------------------------------------

  datatype PartialGoal = PartialGoal(current: Option<int>, target: Option<int>)

  /** A parsed goals file: any field may be missing. */
  datatype SavedGoals = SavedGoals(
    followers: Option<PartialGoal>,
    subscribers: Option<PartialGoal>,
    lastFollow: Option<string>,
    lastSub: Option<string>)

  /** What reading the goals file produced. */
  datatype FileRead =
    | NoFile                        // existsSync was false
    | Unreadable                    // reading or JSON.parse threw
    | Contents(saved: SavedGoals)

  function MergeGoal(saved: Option<PartialGoal>, current: GoalState): GoalState {
    match saved
    case None => current
    case Some(p) => GoalState(p.current.GetOr(current.current), p.target.GetOr(current.target))
  }

  /** `loadConfig`: each field of the file wins when present, otherwise the
      current value stays; with no file the current state is written out; an
      unreadable file changes nothing. */
  function LoadConfig(state: GoalsConfig, file: FileRead): (r: Step)
    ensures file.NoFile? ==> r == Step(state, [Saved(state)])
    ensures file.Unreadable? ==> r == Step(state, [])
    ensures file.Contents? ==> r.effects == []
    ensures file.Contents? ==>
      var f := file.saved;
      && r.state.followers.current ==
           (if f.followers.Some? && f.followers.value.current.Some?
            then f.followers.value.current.value else state.followers.current)
      && r.state.followers.target ==
           (if f.followers.Some? && f.followers.value.target.Some?
            then f.followers.value.target.value else state.followers.target)
      && r.state.subscribers.current ==
           (if f.subscribers.Some? && f.subscribers.value.current.Some?
            then f.subscribers.value.current.value else state.subscribers.current)
      && r.state.subscribers.target ==
           (if f.subscribers.Some? && f.subscribers.value.target.Some?
            then f.subscribers.value.target.value else state.subscribers.target)
      && r.state.lastFollow == (if f.lastFollow.Some? then f.lastFollow else state.lastFollow)
      && r.state.lastSub == (if f.lastSub.Some? then f.lastSub else state.lastSub)
  {
    match file
    case NoFile => Step(state, [Saved(state)])
    case Unreadable => Step(state, [])
    case Contents(f) =>
      var merged := GoalsConfig(
        MergeGoal(f.followers, state.followers),
        MergeGoal(f.subscribers, state.subscribers),
        if f.lastFollow.Some? then f.lastFollow else state.lastFollow,
        if f.lastSub.Some? then f.lastSub else state.lastSub);
      Step(merged, [])
  }

  /** Loading back the file that `saveConfig` wrote restores the state. */
  lemma LoadSavedRoundTrip(state: GoalsConfig, any: GoalsConfig)
    requires state.lastFollow.Some? && state.lastSub.Some?
    ensures LoadConfig(any, Contents(ToFile(state))).state == state
  {
  }

  /** The file `saveConfig` writes for a state. */
  function ToFile(state: GoalsConfig): SavedGoals {
    SavedGoals(
      Some(PartialGoal(Some(state.followers.current), Some(state.followers.target))),
      Some(PartialGoal(Some(state.subscribers.current), Some(state.subscribers.target))),
      state.lastFollow,
      state.lastSub)
  }

  // --- Updates ---------------------------------------------------------------

  datatype GoalPatch = GoalPatch(target: Option<int>, current: Option<int>)

  /** The body of `updateGoalsConfig`: any omitted field is left unchanged. */
  datatype GoalsUpdate = GoalsUpdate(followers: Option<GoalPatch>, subscribers: Option<GoalPatch>)

  function Patch(g: GoalState, p: Option<GoalPatch>): GoalState {
    match p
    case None => g
    case Some(q) => GoalState(q.current.GetOr(g.current), q.target.GetOr(g.target))
  }

  /** `updateGoalsConfig`: overwrite the provided fields, save, re-broadcast. */
  function UpdateGoalsConfig(state: GoalsConfig, update: GoalsUpdate): (r: Step)
    ensures r.state.lastFollow == state.lastFollow && r.state.lastSub == state.lastSub
    ensures update.followers.None? ==> r.state.followers == state.followers
    ensures update.subscribers.None? ==> r.state.subscribers == state.subscribers
    ensures update.followers.Some? ==>
      && (update.followers.value.target.Some? ==> r.state.followers.target == update.followers.value.target.value)
      && (update.followers.value.target.None? ==> r.state.followers.target == state.followers.target)
      && (update.followers.value.current.Some? ==> r.state.followers.current == update.followers.value.current.value)
      && (update.followers.value.current.None? ==> r.state.followers.current == state.followers.current)
    ensures update.subscribers.Some? ==>
      && (update.subscribers.value.target.Some? ==> r.state.subscribers.target == update.subscribers.value.target.value)
      && (update.subscribers.value.target.None? ==> r.state.subscribers.target == state.subscribers.target)
      && (update.subscribers.value.current.Some? ==> r.state.subscribers.current == update.subscribers.value.current.value)
      && (update.subscribers.value.current.None? ==> r.state.subscribers.current == state.subscribers.current)
    ensures |r.effects| >= 3 && r.effects[0] == Saved(r.state)
    ensures r.effects[1..] == Publish(BroadcastAllGoals(r.state))
  {
    var next := state.(followers := Patch(state.followers, update.followers),
                       subscribers := Patch(state.subscribers, update.subscribers));
    Step(next, [Saved(next)] + Publish(BroadcastAllGoals(next)))
  }

  /** The events among some effects, in order. */
  function Events(effects: seq<Effect>): (r: seq<WSEvent>)
    ensures |r| <= |effects|
    ensures forall e :: e in r <==> Published(e) in effects
  {
    if |effects| == 0 then []
    else (if effects[0].Published? then [effects[0].event] else []) + Events(effects[1..])
  }

  /** Each event as a broadcast effect. */
  function Publish(events: seq<WSEvent>): (r: seq<Effect>)
    ensures |r| == |events|
    ensures forall i :: 0 <= i < |events| ==> r[i] == Published(events[i])
  {
    if |events| == 0 then [] else [Published(events[0])] + Publish(events[1..])
  }

  /** Publishing a list of events broadcasts exactly those events, in order. */
  lemma {:induction false} EventsOfPublish(events: seq<WSEvent>)
    ensures Events(Publish(events)) == events
  {
    if |events| > 0 {
      EventsOfPublish(events[1..]);
      assert Publish(events)[1..] == Publish(events[1..]);
    }
  }

  lemma {:induction false} EventsAppend(a: seq<Effect>, b: seq<Effect>)
    ensures Events(a + b) == Events(a) + Events(b)
  {
    if |a| > 0 {
      EventsAppend(a[1..], b);
      assert (a + b)[1..] == a[1..] + b;
    } else {
      assert a + b == b;
    }
  }

  /** `incrementFollowerCount`. */
  function IncrementFollowerCount(state: GoalsConfig): (r: Counted)
    ensures r.count == state.followers.current + 1
    ensures r.state == state.(followers := GoalState(r.count, state.followers.target))
    ensures r.effects == [Saved(r.state)]
  {
    var next := state.(followers := state.followers.(current := state.followers.current + 1));
    Counted(next, next.followers.current, [Saved(next)])
  }

  /** `incrementSubscriberCount`. */
  function IncrementSubscriberCount(state: GoalsConfig): (r: Counted)
    ensures r.count == state.subscribers.current + 1
    ensures r.state == state.(subscribers := GoalState(r.count, state.subscribers.target))
    ensures r.effects == [Saved(r.state)]
  {
    var next := state.(subscribers := state.subscribers.(current := state.subscribers.current + 1));
    Counted(next, next.subscribers.current, [Saved(next)])
  }

  /** `setLastFollow`. */
  function SetLastFollow(state: GoalsConfig, name: string): (r: Step)
    ensures r.state == state.(lastFollow := Some(name))
    ensures r.effects == [Saved(r.state)]
  {
    var next := state.(lastFollow := Some(name));
    Step(next, [Saved(next)])
  }

  /** `setLastSub`. */
  function SetLastSub(state: GoalsConfig, name: string): (r: Step)
    ensures r.state == state.(lastSub := Some(name))
    ensures r.effects == [Saved(r.state)]
  {
    var next := state.(lastSub := Some(name));
    Step(next, [Saved(next)])
  }

  // --- Snapshots -------------------------------------------------------------

  /** A name is shown only when it is truthy (present and non-empty). */
  predicate Truthy(name: Option<string>) {
    name.Some? && name.value != ""
  }

  /** The viewer invented for a remembered name: no identity, the name
      lower-cased as login, the name itself as display name. */
  function SyntheticViewer(name: string): (v: ViewerInfo)
    ensures v.twitchId == "" && v.displayName == name
    ensures |v.username| == |name|
    ensures forall i :: 0 <= i < |name| ==> v.username[i] == Text.LowerChar(name[i])
  {
    ViewerInfo("", Text.ToLower(name), name)
  }

  /** The synthetic `alert:follow` / `alert:sub` that carry the remembered names. */
  function LastNameAlerts(state: GoalsConfig): (r: seq<WSEvent>)
    ensures |r| == (if Truthy(state.lastFollow) then 1 else 0) + (if Truthy(state.lastSub) then 1 else 0)
    ensures Truthy(state.lastFollow) ==> r[0] == AlertFollow(SyntheticViewer(state.lastFollow.value))
    ensures Truthy(state.lastSub) ==> r[|r| - 1] == AlertSub(SyntheticViewer(state.lastSub.value), 1.0, 0)
  {
    (if Truthy(state.lastFollow) then [AlertFollow(SyntheticViewer(state.lastFollow.value))] else [])
    + (if Truthy(state.lastSub) then [AlertSub(SyntheticViewer(state.lastSub.value), 1.0, 0)] else [])
  }

  /** `getGoalsInitPayload`: followers then subscribers, as they stand. */
  function GoalsInitPayload(state: GoalsConfig): (r: seq<GoalPayload>)
    ensures |r| == 2
    ensures r[0] == GoalPayload(Followers, state.followers.current, state.followers.target)
    ensures r[1] == GoalPayload(Subscribers, state.subscribers.current, state.subscribers.target)
  {
    [GoalPayload(Followers, state.followers.current, state.followers.target),
     GoalPayload(Subscribers, state.subscribers.current, state.subscribers.target)]
  }

  /** `broadcastAllGoals`: the two goal updates, then the remembered names. */
  function BroadcastAllGoals(state: GoalsConfig): (r: seq<WSEvent>)
    ensures 2 <= |r| <= 4
    ensures r[0] == GoalUpdate(GoalPayload(Followers, state.followers.current, state.followers.target))
    ensures r[1] == GoalUpdate(GoalPayload(Subscribers, state.subscribers.current, state.subscribers.target))
    ensures (exists i :: 2 <= i < |r| && r[i].AlertFollow?) <==> Truthy(state.lastFollow)
    ensures (exists i :: 2 <= i < |r| && r[i].AlertSub?) <==> Truthy(state.lastSub)
    ensures forall i :: 2 <= i < |r| ==> (r[i].AlertFollow? || r[i].AlertSub?) && r[i].viewer.twitchId == ""
    ensures r[2..] == LastNameAlerts(state)
  {
    var goals := GoalsInitPayload(state);
    var r := [GoalUpdate(goals[0]), GoalUpdate(goals[1])] + LastNameAlerts(state);
    assert Truthy(state.lastFollow) ==> r[2].AlertFollow?;
    assert Truthy(state.lastSub) ==> r[|r| - 1].AlertSub?;
    r
  }
}
