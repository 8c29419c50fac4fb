/** The alerts overlay (`AlertsPage.tsx`): incoming alert events become
    popups, queued first-in first-out and shown one at a time for 5 s each,
    each with its sound (`useSound.ts`).

    The page's refs and state are one record; the 5 s timeout is the `Expire`
    event, `crypto.randomUUID()` is a counter, and playback is a trace of the
    sound keys played. */
module Alerts {
  import opened Wrappers
  import opened Shared
  import Text

  const AlertDuration := 5000

  /** The sound catalogue `SOUND_MAP`. */
  const SoundMap: set<string> := {"follow", "sub", "raid", "bits", "dice"}

  datatype AlertItem = AlertItem(
    id: nat, kind: string, title: seq<Text.Piece>, message: string, icon: string, sound: string)

  datatype AlertsPage = AlertsPage(
    queue: seq<AlertItem>,      // `queueRef`
    current: Option<AlertItem>, // the one popup slot
    showing: bool,              // `isShowingRef`
    timer: Option<int>,         // the pending `showNext` and its delay
    shown: seq<AlertItem>,      // every alert made current, in order
    played: seq<string>,        // sounds started, in order
    nextId: nat)

  const Idle := AlertsPage([], None, false, None, [], [], 0)

  /** The shape the page keeps: a popup is up exactly while a timer runs,
      it is the last alert shown, and a queue only builds behind it. */
  predicate Valid(p: AlertsPage) {
    && (p.showing <==> p.current.Some?)
    && (p.showing <==> p.timer == Some(AlertDuration))
    && (p.current.Some? ==> |p.shown| > 0 && p.current.value == p.shown[|p.shown| - 1])
    && (!p.showing ==> p.queue == [])
  }

  /** The alerts in the order they were (or will be) shown. */
  function Line(p: AlertsPage): seq<AlertItem> {
    p.shown + p.queue
  }

  /** `playSound`: an unknown key only warns. */
  function PlaySound(played: seq<string>, key: string): (r: seq<string>)
    ensures key in SoundMap ==> r == played + [key]
    ensures key !in SoundMap ==> r == played
  {
    if key in SoundMap then played + [key] else played
  }

  /** `showNext`: dequeue the head, show it, play its sound and schedule the
      next call; on an empty queue, clear the popup and go idle. */
  function ShowNext(p: AlertsPage): (r: AlertsPage)
    ensures p.queue == [] ==> r == p.(showing := false, current := None, timer := None)
    ensures p.queue != [] ==>
      && r.current == Some(p.queue[0]) && r.queue == p.queue[1..] && r.showing
      && r.timer == Some(AlertDuration) && r.shown == p.shown + [p.queue[0]]
      && r.played == PlaySound(p.played, p.queue[0].sound)
    ensures Line(r) == Line(p) && r.nextId == p.nextId
  {
    if p.queue == [] then p.(showing := false, current := None, timer := None)
    else
      var next := p.queue[0];
      assert Line(p) == (p.shown + [next]) + p.queue[1..];
      p.(showing := true, current := Some(next), queue := p.queue[1..],
         shown := p.shown + [next], played := PlaySound(p.played, next.sound),
         timer := Some(AlertDuration))
  }

  /** `enqueueAlert`: push to the back; start showing only when idle. */
  function Enqueue(p: AlertsPage, a: AlertItem): (r: AlertsPage)
    requires Valid(p)
    ensures Valid(r)
    ensures Line(r) == Line(p) + [a]
    ensures p.showing ==> r == p.(queue := p.queue + [a])
    ensures !p.showing ==> r.current == Some(a) && r.queue == [] && r.played == PlaySound(p.played, a.sound)
  {
    var pushed := p.(queue := p.queue + [a]);
    assert Line(pushed) == Line(p) + [a];
    if !p.showing then ShowNext(pushed) else pushed
  }

  /** The 5 s timeout fires: the next alert (or idleness) replaces the popup. */
  function Expire(p: AlertsPage): (r: AlertsPage)
    requires Valid(p)
    ensures Valid(r)
    ensures Line(r) == Line(p)
    ensures p.queue != [] ==> r.current == Some(p.queue[0])
    ensures p.queue == [] ==> r.current.None? && !r.showing
  {
    if p.timer.Some? then ShowNext(p.(timer := None)) else p
  }

  /** `handleEvent`'s mapping: only follow, sub, raid, bits and dice alerts
      become popups. */
  function AlertOf(f: Frame, id: nat): (r: Option<AlertItem>)
    ensures r.Some? <==> f.Event? && (f.event.AlertFollow? || f.event.AlertSub? || f.event.AlertRaid?
                                      || f.event.AlertBits? || f.event.AlertDice?)
    ensures r.Some? ==> r.value.id == id && r.value.sound in SoundMap && r.value.sound == r.value.kind
  {
    if !f.Event? then None
    else match f.event
      case AlertFollow(v) =>
        Some(AlertItem(id, "follow", [Text.Lit("Nouveau Follower !")], v.displayName, "\U{2764}\U{FE0F}", "follow"))
      case AlertSub(v, tier, months) =>
        Some(AlertItem(id, "sub", [Text.Lit("Sub Tier "), Text.Num(tier), Text.Lit(" !")],
                       v.displayName + " (" + Text.IntToString(months) + " mois)", "\U{2B50}", "sub"))
      case AlertRaid(from, viewers, _) =>
        Some(AlertItem(id, "raid", [Text.Lit("Raid de " + from + " !")],
                       Text.IntToString(viewers) + " chevaliers d\U{E9}barquent !", "\U{1F3F0}", "raid"))
      case AlertBits(v, amount) =>
        Some(AlertItem(id, "bits", [Text.Lit(Text.IntToString(amount) + " Bits !")], v.displayName, "\U{1F48E}", "bits"))
      case AlertDice(v, faces, result) =>
        Some(AlertItem(id, "dice", [Text.Lit("Lancer de d" + Text.IntToString(faces))],
                       v.displayName + " \U{2192} " + Text.IntToString(result) + " !", "\U{1F3B2}", "dice"))
      case _ => None
  }

  /** `handleEvent`: a popup-worthy frame is enqueued with a new id; every
      other frame leaves the page as it is. */
  function HandleEvent(p: AlertsPage, f: Frame): (r: AlertsPage)
    requires Valid(p)
    ensures Valid(r)
    ensures AlertOf(f, p.nextId).None? ==> r == p
    ensures AlertOf(f, p.nextId).Some? ==> Line(r) == Line(p) + [AlertOf(f, p.nextId).value] && r.nextId == p.nextId + 1
  {
    var a := AlertOf(f, p.nextId);
    if a.None? then p else Enqueue(p.(nextId := p.nextId + 1), a.value)
  }

  // --- Properties ------------------------------------------------------------

  /** A follow popup: fixed title, the display name as message, its sound. */
  lemma FollowAlertText(v: ViewerInfo, id: nat)
    ensures var a := AlertOf(Event(AlertFollow(v)), id).value;
      Text.Render(a.title) == Some("Nouveau Follower !") && a.message == v.displayName && a.sound == "follow"
  {
    var t: seq<Text.Piece> := [Text.Lit("Nouveau Follower !")];
    assert t[1..] == [];
    assert "Nouveau Follower !" + "" == "Nouveau Follower !";
  }

  /** A sub popup for an integral tier n is titled "Sub Tier n !". */
  lemma SubAlertTitle(v: ViewerInfo, n: int, months: int, id: nat)
    ensures Text.Render(AlertOf(Event(AlertSub(v, n as real, months)), id).value.title)
         == Some("Sub Tier " + Text.IntToString(n) + " !")
  {
    var t: seq<Text.Piece> := [Text.Lit("Sub Tier "), Text.Num(n as real), Text.Lit(" !")];
    assert t[1..] == [Text.Num(n as real), Text.Lit(" !")];
    assert t[1..][1..] == [Text.Lit(" !")];
    assert t[1..][1..][1..] == [];
    assert " !" + "" == " !";
    assert Text.Render(t[1..][1..]) == Some(" !");
    assert (n as real).Floor == n;
    assert Text.PieceText(Text.Num(n as real)) == Some(Text.IntToString(n));
    assert Text.Render(t[1..]) == Some(Text.IntToString(n) + " !");
    assert "Sub Tier " + (Text.IntToString(n) + " !") == "Sub Tier " + Text.IntToString(n) + " !";
  }

  /** Gift subs and channel-point redemptions never pop up. */
  lemma IgnoredAlerts(v: ViewerInfo, recipient: string, tier: real, total: int, anonymous: bool,
                      reward: string, cost: int, p: AlertsPage)
    requires Valid(p)
    ensures HandleEvent(p, Event(AlertGiftSub(v, recipient, tier, total, anonymous))) == p
    ensures HandleEvent(p, Event(AlertChannelPointRedemption(v, reward, cost))) == p
  {
  }

  /** A new alert never preempts the popup on screen, nor restarts its timer. */
  lemma NoPreemption(p: AlertsPage, f: Frame)
    requires Valid(p) && p.showing
    ensures HandleEvent(p, f).current == p.current && HandleEvent(p, f).timer == p.timer
    ensures HandleEvent(p, f).shown == p.shown
  {
  }

  /** A burst of three alerts on an idle page: the first shows at once, the
      others follow one per expiry in arrival order, then the page idles. */
  lemma BurstShownInOrder(a: AlertItem, b: AlertItem, c: AlertItem)
    ensures var p1 := Enqueue(Enqueue(Enqueue(Idle, a), b), c);
      && p1.current == Some(a) && p1.queue == [b, c]
      && Expire(p1).current == Some(b)
      && Expire(Expire(p1)).current == Some(c)
      && Expire(Expire(Expire(p1))).current.None?
      && Expire(Expire(Expire(p1))).shown == [a, b, c]
  {
    var p1 := Enqueue(Enqueue(Enqueue(Idle, a), b), c);
    var p4 := Expire(Expire(Expire(p1)));
    assert Line(p4) == [a, b, c];
  }

  /** Every sound played is one the catalogue knows. */
  lemma {:induction false} PlayedSoundsKnown(p: AlertsPage, frames: seq<Frame>)
    requires Valid(p) && forall k :: k in p.played ==> k in SoundMap
    ensures forall k :: k in HandleAll(p, frames).played ==> k in SoundMap
    decreases |frames|
  {
    if frames != [] {
      var q := HandleEvent(p, frames[0]);
      assert forall k :: k in q.played ==> k in SoundMap;
      PlayedSoundsKnown(q, frames[1..]);
    }
  }

  function HandleAll(p: AlertsPage, frames: seq<Frame>): (r: AlertsPage)
    requires Valid(p)
    ensures Valid(r)
    decreases |frames|
  {
    if frames == [] then p else HandleAll(HandleEvent(p, frames[0]), frames[1..])
  }

  /** The popups come in the order their events arrived: the shown-plus-queued
      line grows by exactly the alert each frame maps to. */
  lemma {:induction false} ArrivalOrder(p: AlertsPage, frames: seq<Frame>)
    requires Valid(p)
    ensures Line(HandleAll(p, frames)) == Line(p) + Alerted(frames, p.nextId)
    decreases |frames|
  {
    if frames != [] {
      var q := HandleEvent(p, frames[0]);
      ArrivalOrder(q, frames[1..]);
      var a := AlertOf(frames[0], p.nextId);
      if a.Some? {
        assert Line(q) == Line(p) + [a.value];
        assert Alerted(frames, p.nextId) == [a.value] + Alerted(frames[1..], p.nextId + 1);
      } else {
        assert Alerted(frames, p.nextId) == Alerted(frames[1..], p.nextId);
      }
    }
  }

  /** The popups a run of frames produces, numbered from `id`. */
  function Alerted(frames: seq<Frame>, id: nat): seq<AlertItem>
    decreases |frames|
  {
    if frames == [] then []
    else
      var a := AlertOf(frames[0], id);
      if a.None? then Alerted(frames[1..], id) else [a.value] + Alerted(frames[1..], id + 1)
  }
}
