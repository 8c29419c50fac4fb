/** The goals panel's display arithmetic (`GuildPanel.tsx`): the defaults for
    a goal the page has not heard of yet, the progress bar's percentage, its
    completion colour and low-progress pulse, and the name plaques. Numbers are
    exact reals here; floating-point rounding is not modelled. */
module GuildPanel {
  import opened Wrappers
  import opened Shared
  import GoalsPage

  datatype Bar = Bar(current: int, target: int)

  /** The followers and subscribers bars, defaulting to 0/1000 and 0/50. */
  function Bars(goals: map<GoalKind, GoalPayload>): (r: (Bar, Bar))
    ensures Followers in goals ==> r.0 == Bar(goals[Followers].current, goals[Followers].target)
    ensures Followers !in goals ==> r.0 == Bar(0, 1000)
    ensures Subscribers in goals ==> r.1 == Bar(goals[Subscribers].current, goals[Subscribers].target)
    ensures Subscribers !in goals ==> r.1 == Bar(0, 50)
  {
    (if Followers in goals then Bar(goals[Followers].current, goals[Followers].target) else Bar(0, 1000),
     if Subscribers in goals then Bar(goals[Subscribers].current, goals[Subscribers].target) else Bar(0, 50))
  }

  /** The fill percentage: 0 for a non-positive target, else the progress
      capped at 100 (a negative count is not floored). */
  function Pct(b: Bar): (pct: real)
    ensures pct <= 100.0
    ensures b.target <= 0 ==> pct == 0.0
    ensures b.target > 0 && b.current >= b.target ==> pct == 100.0
    ensures b.target > 0 && b.current < b.target ==> pct * (b.target as real) == 100.0 * (b.current as real)
    ensures b.target > 0 && 0 <= b.current ==> 0.0 <= pct
  {
    if b.target > 0 then
      var p := (b.current as real) / (b.target as real) * 100.0;
      if p < 100.0 then p else 100.0
    else 0.0
  }

  predicate IsComplete(b: Bar) {
    b.current >= b.target
  }

  /** The HP bar pulses when it is short of its goal and under a quarter
      full; the mana bar never pulses. */
  predicate Pulses(b: Bar, hp: bool) {
    hp && !IsComplete(b) && Pct(b) < 25.0
  }

  /** `Math.round(pct)` as displayed on the bar. */
  function Shown(b: Bar): (n: int)
    ensures n <= 100
    ensures b.target > 0 && b.current >= b.target ==> n == 100
  {
    (Pct(b) + 0.5).Floor
  }

  /** `value || "—"`. */
  function Plaque(name: Option<string>): (s: string)
    ensures name.Some? && name.value != "" ==> s == name.value
    ensures name.None? || name.value == "" ==> s == "\U{2014}"
  {
    if name.Some? && name.value != "" then name.value else "\U{2014}"
  }

  /** The page before any frame: both bars at their defaults, empty, and the
      plaques showing the placeholder. */
  lemma InitialPanel()
    ensures Bars(GoalsPage.Initial.goals) == (Bar(0, 1000), Bar(0, 50))
    ensures Pct(Bar(0, 1000)) == 0.0 && Pct(Bar(0, 50)) == 0.0
    ensures Plaque(GoalsPage.Initial.lastFollow) == "\U{2014}"
  {
  }

  /** A reached goal shows a full, non-pulsing bar. */
  lemma CompleteBar(b: Bar, hp: bool)
    requires b.target > 0 && IsComplete(b)
    ensures Pct(b) == 100.0 && Shown(b) == 100 && !Pulses(b, hp)
  {
  }

  /** Under a quarter of the way there: the HP bar pulses, the mana bar not. */
  lemma LowBarPulses(b: Bar)
    requires b.target > 0 && 0 <= b.current && 4 * b.current < b.target
    ensures Pulses(b, true) && !Pulses(b, false)
  {
    QuarterBound(b.current as real, b.target as real);
  }

  /** A count under a quarter of its target is under 25 %. */
  lemma QuarterBound(c: real, t: real)
    requires 0.0 <= c && t > 0.0 && 4.0 * c < t
    ensures c / t * 100.0 < 25.0
  {
    var q := c / t;
    assert q * t == c;
    ScaleDown(4.0 * q, 1.0, t);
  }

  lemma ScaleDown(a: real, b: real, t: real)
    requires t > 0.0 && a * t < b * t
    ensures a < b
  {
  }
}
