/** The pipeline end to end: what an overlay shows after (re)connecting to
    the hub. The connection snapshot carries the remembered last follower
    and subscriber as ordinary alert events, so the alerts overlay pops them
    up again on every connect while the goals overlay restores its bars and
    names. */
module Pipeline {
  import opened Wrappers
  import opened Shared
  import Goals
  import Broadcaster
  import Alerts
  import GoalsPage
  import Text

  lemma {:induction false} AlertedAppend(a: seq<Frame>, b: seq<Frame>, id: nat)
    ensures Alerts.Alerted(a + b, id) == Alerts.Alerted(a, id) + Alerts.Alerted(b, id + |Alerts.Alerted(a, id)|)
    decreases |a|
  {
    if a == [] {
      assert a + b == b;
    } else {
      assert (a + b)[0] == a[0] && (a + b)[1..] == a[1..] + b;
      var x := Alerts.AlertOf(a[0], id);
      if x.None? {
        AlertedAppend(a[1..], b, id);
      } else {
        AlertedAppend(a[1..], b, id + 1);
      }
    }
  }

  /** The popups one frame yields. */
  lemma AlertedOne(f: Frame, id: nat)
    ensures Alerts.Alerted([f], id) == if Alerts.AlertOf(f, id).Some? then [Alerts.AlertOf(f, id).value] else []
  {
    assert [f][1..] == [];
  }

  /** The popups the connection snapshot yields, numbered from `id`: the
      last follower first, then the last subscriber as a tier-1 sub, and
      nothing for the welcome or the goals. */
  lemma SnapshotPopups(goals: Goals.GoalsConfig, uptime: int, id: nat)
    ensures var pops := Alerts.Alerted(Broadcaster.Snapshot(goals, uptime), id);
      && |pops| == (if Goals.Truthy(goals.lastFollow) then 1 else 0) + (if Goals.Truthy(goals.lastSub) then 1 else 0)
      && (Goals.Truthy(goals.lastFollow) ==>
            pops[0] == Alerts.AlertOf(Event(AlertFollow(Goals.SyntheticViewer(goals.lastFollow.value))), id).value)
      && (Goals.Truthy(goals.lastSub) ==>
            pops[|pops| - 1]
            == Alerts.AlertOf(Event(AlertSub(Goals.SyntheticViewer(goals.lastSub.value), 1.0, 0)), id + |pops| - 1).value)
  {
    var frames := Broadcaster.Snapshot(goals, uptime);
    assert frames == frames[..3] + frames[3..];
    AlertedAppend(frames[..3], frames[3..], id);
    HeadSilent(frames[..3], goals, uptime, id);
    NamePopups(goals, id);
  }

  /** The welcome and the two goal updates make no popup. */
  lemma HeadSilent(head: seq<Frame>, goals: Goals.GoalsConfig, uptime: int, id: nat)
    requires head == Broadcaster.Snapshot(goals, uptime)[..3]
    ensures Alerts.Alerted(head, id) == []
  {
    assert head == [head[0]] + [head[1]] + [head[2]];
    AlertedAppend([head[0]] + [head[1]], [head[2]], id);
    AlertedAppend([head[0]], [head[1]], id);
    AlertedOne(head[0], id);
    AlertedOne(head[1], id);
    AlertedOne(head[2], id);
  }

  /** The name alerts pop up one each, the follower's first. */
  lemma NamePopups(goals: Goals.GoalsConfig, id: nat)
    ensures var pops := Alerts.Alerted(Broadcaster.EventFrames(Goals.LastNameAlerts(goals)), id);
      && |pops| == (if Goals.Truthy(goals.lastFollow) then 1 else 0) + (if Goals.Truthy(goals.lastSub) then 1 else 0)
      && (Goals.Truthy(goals.lastFollow) ==>
            pops[0] == Alerts.AlertOf(Event(AlertFollow(Goals.SyntheticViewer(goals.lastFollow.value))), id).value)
      && (Goals.Truthy(goals.lastSub) ==>
            pops[|pops| - 1]
            == Alerts.AlertOf(Event(AlertSub(Goals.SyntheticViewer(goals.lastSub.value), 1.0, 0)), id + |pops| - 1).value)
  {
    var fo := if Goals.Truthy(goals.lastFollow)
      then [Event(AlertFollow(Goals.SyntheticViewer(goals.lastFollow.value)))] else [];
    var su := if Goals.Truthy(goals.lastSub)
      then [Event(AlertSub(Goals.SyntheticViewer(goals.lastSub.value), 1.0, 0))] else [];
    var names := Broadcaster.EventFrames(Goals.LastNameAlerts(goals));
    assert names == fo + su;
    AlertedAppend(fo, su, id);
    var pops := Alerts.Alerted(fo, id);
    if fo != [] {
      AlertedOne(fo[0], id);
    }
    if su != [] {
      AlertedOne(su[0], id + |pops|);
    }
  }

  /** A reconnect does not remount the alerts overlay, so whatever it was
      showing or queueing stays, and behind it the remembered names pop up
      again: the last follower with its name, then the last subscriber as a
      "Sub Tier 1 !" with "(0 mois)". */
  lemma ReconnectReplaysPopups(p: Alerts.AlertsPage, goals: Goals.GoalsConfig, uptime: int)
    requires Alerts.Valid(p)
    ensures var n := |Alerts.Line(p)|;
      var line := Alerts.Line(Alerts.HandleAll(p, Broadcaster.Snapshot(goals, uptime)));
      && |line| == n + (if Goals.Truthy(goals.lastFollow) then 1 else 0) + (if Goals.Truthy(goals.lastSub) then 1 else 0)
      && line[..n] == Alerts.Line(p)
      && (Goals.Truthy(goals.lastFollow) ==>
            line[n].kind == "follow" && line[n].message == goals.lastFollow.value && line[n].sound == "follow")
      && (Goals.Truthy(goals.lastSub) ==>
            && line[|line| - 1].kind == "sub" && line[|line| - 1].sound == "sub"
            && line[|line| - 1].message == goals.lastSub.value + " (0 mois)"
            && Text.Render(line[|line| - 1].title) == Some("Sub Tier 1 !"))
  {
    var frames := Broadcaster.Snapshot(goals, uptime);
    var line := Alerts.Line(Alerts.HandleAll(p, frames));
    var pops := Alerts.Alerted(frames, p.nextId);
    Alerts.ArrivalOrder(p, frames);
    SnapshotPopups(goals, uptime, p.nextId);
    assert line == Alerts.Line(p) + pops;
    assert line[..|Alerts.Line(p)|] == Alerts.Line(p);
    if Goals.Truthy(goals.lastFollow) {
      assert line[|Alerts.Line(p)|] == pops[0];
      FollowPopup(goals.lastFollow.value, p.nextId);
    }
    if Goals.Truthy(goals.lastSub) {
      assert line[|line| - 1] == pops[|pops| - 1];
      SubPopup(goals.lastSub.value, p.nextId + |pops| - 1);
    }
  }

  /** The replayed follow popup carries the name. */
  lemma FollowPopup(name: string, id: nat)
    ensures var a := Alerts.AlertOf(Event(AlertFollow(Goals.SyntheticViewer(name))), id).value;
      a.kind == "follow" && a.message == name && a.sound == "follow"
  {
  }

  /** The replayed sub popup reads as a tier-1 sub of 0 months. */
  lemma SubPopup(name: string, id: nat)
    ensures var a := Alerts.AlertOf(Event(AlertSub(Goals.SyntheticViewer(name), 1.0, 0)), id).value;
      && a.kind == "sub" && a.sound == "sub" && a.message == name + " (0 mois)"
      && Text.Render(a.title) == Some("Sub Tier 1 !")
  {
    var v := Goals.SyntheticViewer(name);
    assert Text.IntToString(0) == "0" && Text.IntToString(1) == "1";
    Alerts.SubAlertTitle(v, 1, 0, id);
    assert (1 as real) == 1.0;
    assert "Sub Tier " + "1" + " !" == "Sub Tier 1 !";
  }

  /** Connecting the goals overlay restores both bars and both names from
      the snapshot alone. */
  lemma ReconnectRestoresGoals(goals: Goals.GoalsConfig, uptime: int)
    ensures var v := GoalsPage.HandleAll(GoalsPage.Initial, Broadcaster.Snapshot(goals, uptime));
      && v.goals == map[Followers := GoalPayload(Followers, goals.followers.current, goals.followers.target),
                        Subscribers := GoalPayload(Subscribers, goals.subscribers.current, goals.subscribers.target)]
      && v.lastFollow == (if Goals.Truthy(goals.lastFollow) then goals.lastFollow else None)
      && v.lastSub == (if Goals.Truthy(goals.lastSub) then goals.lastSub else None)
  {
    var frames := Broadcaster.Snapshot(goals, uptime);
    var head := frames[..3];
    var fo := if Goals.Truthy(goals.lastFollow)
      then [Event(AlertFollow(Goals.SyntheticViewer(goals.lastFollow.value)))] else [];
    var su := if Goals.Truthy(goals.lastSub)
      then [Event(AlertSub(Goals.SyntheticViewer(goals.lastSub.value), 1.0, 0))] else [];
    assert frames == head + fo + su;
    var i := GoalsPage.Initial;
    var v0 := GoalsPage.HandleEvent(GoalsPage.HandleEvent(GoalsPage.HandleEvent(i, head[0]), head[1]), head[2]);
    assert GoalsPage.HandleAll(i, head) == v0 by {
      assert head == [head[0]] + [head[1]] + [head[2]];
      HandleAllAppend(i, [head[0]] + [head[1]], [head[2]]);
      HandleAllAppend(i, [head[0]], [head[1]]);
      HandleAllOne(i, head[0]);
      HandleAllOne(GoalsPage.HandleEvent(i, head[0]), head[1]);
      HandleAllOne(GoalsPage.HandleEvent(GoalsPage.HandleEvent(i, head[0]), head[1]), head[2]);
    }
    HandleAllAppend(i, head + fo, su);
    HandleAllAppend(i, head, fo);
    var v1 := GoalsPage.HandleAll(v0, fo);
    if fo != [] {
      HandleAllOne(v0, fo[0]);
    }
    if su != [] {
      HandleAllOne(v1, su[0]);
    }
  }

  lemma {:induction false} HandleAllAppend(v: GoalsPage.GoalsView, a: seq<Frame>, b: seq<Frame>)
    ensures GoalsPage.HandleAll(v, a + b) == GoalsPage.HandleAll(GoalsPage.HandleAll(v, a), b)
    decreases |a|
  {
    if a == [] {
      assert a + b == b;
    } else {
      assert (a + b)[0] == a[0] && (a + b)[1..] == a[1..] + b;
      HandleAllAppend(GoalsPage.HandleEvent(v, a[0]), a[1..], b);
    }
  }

  lemma HandleAllOne(v: GoalsPage.GoalsView, f: Frame)
    ensures GoalsPage.HandleAll(v, [f]) == GoalsPage.HandleEvent(v, f)
  {
    assert [f][1..] == [];
  }
}
