/** The pause screen's clip player (`PausePlayer.tsx`): it loads the clip
    list once on mount, plays the clips one after another, refetches (for a
    new shuffle) whenever it wraps around, and skips a clip whose video fails.

    The HTTP request is its outcome (`Response`), and the two timeouts (600 ms
    for the fade, 500 ms after a video error) are pending entries fired by
    `TimerFired`. Each entry keeps the clip count the callback captured when
    it was scheduled. */
module Pause {
  import opened Wrappers
  import Text
  import Clips

  /** What `fetch` and `res.json()` produce: the body's `ok` and clips, or
      a thrown error. */
  datatype Response = Fetched(ok: bool, clips: seq<Clips.Clip>) | Failed

  datatype Pending =
    | Advance(count: nat)   // the fade's timeout inside `goToNext`
    | Retry(count: nat)     // the timeout `handleVideoError` sets

  datatype Player = Player(
    clips: seq<Clips.Clip>,
    index: nat,             // `currentIndex`
    transitioning: bool,
    loaded: bool,
    hasError: bool,
    pending: seq<Pending>,
    fetches: nat)           // requests for the clip list so far

  datatype PlayerEvent =
    | Loaded(response: Response)   // a request completes
    | VideoEnded
    | VideoFailed
    | TimerFired(k: nat)           // the k-th pending timeout elapses

  /** The first render: nothing loaded, one request under way. */
  const Mounted := Player([], 0, false, false, false, [], 1)

  /** The clips with a local video, in their order. */
  function LocalClips(cs: seq<Clips.Clip>): (r: seq<Clips.Clip>)
    ensures |r| <= |cs|
    ensures forall c :: c in r <==> c in cs && c.videoUrl != ""
    decreases |cs|
  {
    if cs == [] then []
    else (if cs[0].videoUrl != "" then [cs[0]] else []) + LocalClips(cs[1..])
  }

  /** `fetchClips`: a non-empty list with local videos replaces the clips
      and starts over at the first; any other outcome only raises the error
      flag and keeps what was playing. */
  function OnFetch(p: Player, response: Response): (r: Player)
    ensures r.pending == p.pending && r.fetches == p.fetches && r.transitioning == p.transitioning
    ensures response.Fetched? && response.ok && |LocalClips(response.clips)| > 0 ==>
      r == p.(clips := LocalClips(response.clips), index := 0, loaded := true, hasError := false)
    ensures !(response.Fetched? && response.ok && |LocalClips(response.clips)| > 0) ==>
      r == p.(hasError := true)
  {
    match response
    case Failed => p.(hasError := true)
    case Fetched(ok, cs) =>
      if ok && |cs| > 0 then
        var local := LocalClips(cs);
        if |local| > 0 then p.(clips := local, index := 0, loaded := true, hasError := false)
        else p.(hasError := true)
      else p.(hasError := true)
  }

  /** `goToNext` with the clip count it captured: nothing on an empty list,
      otherwise start the fade and schedule the advance. */
  function GoToNext(p: Player, count: nat): (r: Player)
    ensures count == 0 ==> r == p
    ensures count > 0 ==> r == p.(transitioning := true, pending := p.pending + [Advance(count)])
  {
    if count == 0 then p else p.(transitioning := true, pending := p.pending + [Advance(count)])
  }

  /** The fade ends: the next clip, or back to the first and a refetch once
      the index reaches the count. */
  function AdvanceIndex(p: Player, count: nat): (r: Player)
    requires count > 0
    ensures r.index < count
    ensures p.index < count ==> r.index == (p.index + 1) % count
    ensures r.fetches == p.fetches + (if p.index + 1 >= count then 1 else 0)
    ensures !r.transitioning && r.clips == p.clips && r.pending == p.pending
  {
    var next := p.index + 1;
    if next >= count then p.(index := 0, fetches := p.fetches + 1, transitioning := false)
    else p.(index := next, transitioning := false)
  }

  function Remove<T>(s: seq<T>, k: nat): (r: seq<T>)
    requires k < |s|
    ensures |r| == |s| - 1
  {
    s[..k] + s[k + 1..]
  }

  function Step(p: Player, e: PlayerEvent): (r: Player)
    ensures r.fetches >= p.fetches
  {
    match e
    case Loaded(response) => OnFetch(p, response)
    case VideoEnded => GoToNext(p, |p.clips|)
    case VideoFailed => p.(pending := p.pending + [Retry(|p.clips|)])
    case TimerFired(k) =>
      if k >= |p.pending| then p
      else
        var q := p.(pending := Remove(p.pending, k));
        match p.pending[k]
        case Advance(count) => if count == 0 then q else AdvanceIndex(q, count)
        case Retry(count) => GoToNext(q, count)
  }

  /** Every pending callback captured the current clip count, and the index
      points at a clip whenever there are clips. */
  predicate Consistent(p: Player) {
    && (|p.clips| > 0 ==> p.index < |p.clips|)
    && forall k :: 0 <= k < |p.pending| ==> p.pending[k].count == |p.clips|
  }

  /** The index stays on a clip: every step keeps the player consistent,
      as long as a new list does not arrive while callbacks are pending. */
  lemma StepKeepsIndexInRange(p: Player, e: PlayerEvent)
    requires Consistent(p)
    requires e.Loaded? ==> p.pending == []
    ensures Consistent(Step(p, e))
  {
    match e
    case TimerFired(k) =>
      if k < |p.pending| {
        var rest := Remove(p.pending, k);
        assert forall i :: 0 <= i < |rest| ==> rest[i] in p.pending;
      }
    case _ =>
  }

  /** A clip ending and its fade completing, with nothing else pending. */
  function PlayOne(p: Player): Player {
    Step(Step(p, VideoEnded), TimerFired(0))
  }

  lemma PlayOneAdvances(p: Player)
    requires Consistent(p) && p.pending == [] && |p.clips| > 0
    ensures var r := PlayOne(p);
      && r.index == (p.index + 1) % |p.clips|
      && r.fetches == p.fetches + (if p.index + 1 == |p.clips| then 1 else 0)
      && r.pending == [] && r.clips == p.clips && !r.transitioning
  {
    var q := Step(p, VideoEnded);
    assert q.pending == [Advance(|p.clips|)];
  }

  /** A failing video is skipped like one that ended: the retry timeout
      schedules the same fade. */
  lemma FailedVideoSkipped(p: Player)
    requires p.pending == []
    ensures Step(Step(Step(p, VideoFailed), TimerFired(0)), TimerFired(0)) == PlayOne(p)
  {
    var q := Step(p, VideoFailed);
    assert q.pending == [Retry(|p.clips|)];
    assert Remove(q.pending, 0) == [];
  }

  function PlayMany(p: Player, n: nat): Player
    decreases n
  {
    if n == 0 then p else PlayMany(PlayOne(p), n - 1)
  }

  /** Played through undisturbed, the clips come in order and wrap around,
      with one refetch per completed lap. */
  lemma {:induction false} PlaysInLaps(p: Player, n: nat)
    requires Consistent(p) && p.pending == [] && |p.clips| > 0
    ensures var r := PlayMany(p, n);
      && r.index == (p.index + n) % |p.clips|
      && r.fetches == p.fetches + (p.index + n) / |p.clips|
      && r.clips == p.clips && r.pending == []
    decreases n
  {
    if n == 0 {
      DivModUnique(p.index, |p.clips|, 0, p.index);
    } else {
      var q := PlayOne(p);
      var r := PlayMany(q, n - 1);
      var i, c := p.index, |p.clips|;
      var wrapped := if i + 1 == c then 1 else 0;
      var j := (i + 1) % c;
      assert q.index == j && q.fetches == p.fetches + wrapped && q.clips == p.clips && q.pending == [] by {
        PlayOneAdvances(p);
      }
      assert r.index == (j + (n - 1)) % c && r.fetches == q.fetches + (j + (n - 1)) / c
          && r.clips == p.clips && r.pending == [] by {
        PlaysInLaps(q, n - 1);
      }
      assert (j + (n - 1)) % c == (i + n) % c && wrapped + (j + (n - 1)) / c == (i + n) / c by {
        LapArithmetic(i, n, c);
      }
      assert PlayMany(p, n) == r;
    }
  }

  lemma LapArithmetic(i: nat, n: nat, c: nat)
    requires i < c && n > 0
    ensures ((i + 1) % c + (n - 1)) % c == (i + n) % c
    ensures (if i + 1 == c then 1 else 0) + ((i + 1) % c + (n - 1)) / c == (i + n) / c
  {
    if i + 1 == c {
      var q, r := (n - 1) / c, (n - 1) % c;
      DivModUnique(i + 1, c, 1, 0);
      DivModUnique(n - 1, c, q, r);
      DivModUnique(i + n, c, q + 1, r);
    } else {
      DivModUnique(i + 1, c, 0, i + 1);
    }
  }

  lemma DivModUnique(a: int, c: int, q: int, r: int)
    requires c > 0 && 0 <= r < c && a == q * c + r
    ensures a / c == q && a % c == r
  {
    var d := a / c - q;
    assert d * c == r - a % c;
    assert d >= 1 ==> d * c >= c;
    assert d <= -1 ==> d * c <= -c;
  }

  /** What the page renders: the waiting screen until clips are loaded or
      after an error (with the error line then), else the current clip and
      the `{index + 1} / {count}` counter. */
  datatype Screen = Waiting(showError: bool) | Playing(clip: Option<Clips.Clip>, counter: string)

  function Render(p: Player): (s: Screen)
    ensures s.Waiting? <==> p.hasError || !p.loaded
    ensures s.Waiting? ==> s.showError == p.hasError
    ensures s.Playing? ==> s.counter == Text.IntToString(p.index + 1) + " / " + Text.IntToString(|p.clips|)
    ensures s.Playing? && p.index < |p.clips| ==> s.clip == Some(p.clips[p.index])
  {
    if p.hasError || !p.loaded then Waiting(p.hasError)
    else Playing(if p.index < |p.clips| then Some(p.clips[p.index]) else None,
                 Text.IntToString(p.index + 1) + " / " + Text.IntToString(|p.clips|))
  }

  /** A good first load shows the first local clip as "1 / n"; a failed one
      keeps the waiting screen with its error line. */
  lemma FirstLoad(cs: seq<Clips.Clip>)
    ensures var local := LocalClips(cs);
      |local| > 0 ==> Render(Step(Mounted, Loaded(Fetched(true, cs)))) == Playing(Some(local[0]), "1 / " + Text.IntToString(|local|))
    ensures Render(Step(Mounted, Loaded(Failed))) == Waiting(true)
  {
    assert Text.IntToString(1) == "1";
  }
}
