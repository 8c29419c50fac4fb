/** The goals overlay's state (`GoalsPage.tsx`): the latest goal payload per
    goal kind and the last follower and subscriber names, updated from the
    frames the link delivers. */
module GoalsPage {
  import opened Wrappers
  import opened Shared

  datatype GoalsView = GoalsView(
    goals: map<GoalKind, GoalPayload>,
    lastFollow: Option<string>,
    lastSub: Option<string>)

  const Initial := GoalsView(map[], None, None)

  /** `handleEvent`. */
  function HandleEvent(v: GoalsView, f: Frame): (r: GoalsView)
    ensures f.Event? && f.event.GoalUpdate? ==>
      r == v.(goals := v.goals[f.event.goal.kind := f.event.goal])
    ensures f.GoalLastFollow? ==> r == v.(lastFollow := Some(f.displayName))
    ensures f.GoalLastSub? ==> r == v.(lastSub := Some(f.displayName))
    ensures f.Event? && f.event.AlertFollow? ==> r == v.(lastFollow := Some(f.event.viewer.displayName))
    ensures f.Event? && (f.event.AlertSub? || f.event.AlertGiftSub?) ==>
      r == v.(lastSub := Some(f.event.viewer.displayName))
    ensures r.goals.Keys == v.goals.Keys || (f.Event? && f.event.GoalUpdate? && r.goals.Keys == v.goals.Keys + {f.event.goal.kind})
  {
    match f
    case Event(e) =>
      (match e
       case GoalUpdate(g) => v.(goals := v.goals[g.kind := g])
       case AlertFollow(viewer) => v.(lastFollow := Some(viewer.displayName))
       case AlertSub(viewer, _, _) => v.(lastSub := Some(viewer.displayName))
       case AlertGiftSub(viewer, _, _, _, _) => v.(lastSub := Some(viewer.displayName))
       case _ => v)
    case GoalLastFollow(name) => v.(lastFollow := Some(name))
    case GoalLastSub(name) => v.(lastSub := Some(name))
    case _ => v
  }

  function HandleAll(v: GoalsView, frames: seq<Frame>): GoalsView
    decreases |frames|
  {
    if frames == [] then v else HandleAll(HandleEvent(v, frames[0]), frames[1..])
  }

  /** A goal update touches only its own kind's entry and neither name. */
  lemma GoalUpdateIsolated(v: GoalsView, g: GoalPayload, other: GoalKind)
    requires other != g.kind
    ensures var r := HandleEvent(v, Event(GoalUpdate(g)));
      && r.goals[g.kind] == g
      && (other in v.goals <==> other in r.goals)
      && (other in v.goals ==> r.goals[other] == v.goals[other])
      && r.lastFollow == v.lastFollow && r.lastSub == v.lastSub
  {
  }

  /** Chat, clears, raids, bits, dice, rewards, credits, welcome and pong
      frames leave the view as it is. */
  lemma OtherFramesIgnored(v: GoalsView, f: Frame)
    requires !f.GoalLastFollow? && !f.GoalLastSub?
    requires f.Event? ==> !(f.event.GoalUpdate? || f.event.AlertFollow? || f.event.AlertSub? || f.event.AlertGiftSub?)
    ensures HandleEvent(v, f) == v
  {
  }
}
