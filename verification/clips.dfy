/** The clip cache (`clips.service.ts`): the clip list posted by the
    broadcasting tool replaces the cache, and each read returns the cache in a
    fresh random order, optionally cut to a limit.

    `Math.random()` is a parameter: `picks[k]` drives the k-th swap of the
    Fisher-Yates loop, which swaps position i with position picks[k] mod (i+1),
    the range `Math.floor(Math.random() * (i + 1))` covers. */
module Clips {
  import opened Wrappers

  /** A clip as far as the server and the pause overlay use it: an empty
      `videoUrl` means the clip has no local file. */
  datatype Clip = Clip(id: string, title: string, videoUrl: string)

  datatype ClipStore = ClipStore(clips: seq<Clip>, syncedAt: Option<string>)

  const Empty := ClipStore([], None)

  function Swap<T>(a: seq<T>, i: nat, j: nat): (r: seq<T>)
    requires i < |a| && j < |a|
    ensures |r| == |a| && r[i] == a[j] && r[j] == a[i]
    ensures forall k :: 0 <= k < |a| && k != i && k != j ==> r[k] == a[k]
    ensures multiset(r) == multiset(a)
  {
    a[i := a[j]][j := a[i]]
  }

  /** The position `Math.floor(Math.random() * (i + 1))` selects. */
  function Pick(p: nat, i: nat): (j: nat)
    ensures j <= i
  {
    p % (i + 1)
  }

  /** The Fisher-Yates pass from position i down to 1, consuming picks from k. */
  function FisherYates<T>(a: seq<T>, i: nat, picks: seq<nat>, k: nat): (r: seq<T>)
    requires i < |a| || i == 0
    requires k + i <= |picks|
    ensures multiset(r) == multiset(a)
    decreases i
  {
    if i == 0 then a
    else FisherYates(Swap(a, i, Pick(picks[k], i)), i - 1, picks, k + 1)
  }

  lemma FisherYatesStep<T>(a: seq<T>, i: nat, picks: seq<nat>, k: nat)
    requires 0 < i < |a| && k + i <= |picks|
    ensures FisherYates(a, i, picks, k) == FisherYates(Swap(a, i, Pick(picks[k], i)), i - 1, picks, k + 1)
  {
  }

  /** `shuffle`: copy, then swap each position from the last down to 1 with a
      position at or before it. */
  method Shuffle<T>(a: seq<T>, picks: seq<nat>) returns (r: seq<T>)
    requires |picks| + 1 >= |a|
    ensures |r| == |a|
    ensures multiset(r) == multiset(a)
    ensures |a| > 0 ==> r == FisherYates(a, |a| - 1, picks, 0)
  {
    r := a;
    if |a| == 0 {
      return;
    }
    var i := |a| - 1;
    var k := 0;
    while i > 0
      invariant 0 <= i < |a| && k + i == |a| - 1
      invariant |r| == |a|
      invariant FisherYates(r, i, picks, k) == FisherYates(a, |a| - 1, picks, 0)
    {
      var j := Pick(picks[k], i);
      FisherYatesStep(r, i, picks, k);
      r := Swap(r, i, j);
      i := i - 1;
      k := k + 1;
    }
  }

  /** Picks that land every swap of the pass from position i down on its
      own position. */
  predicate StillPicks(picks: seq<nat>, k: nat, i: nat)
    requires k + i <= |picks|
    decreases i
  {
    i == 0 || (Pick(picks[k], i) == i && StillPicks(picks, k + 1, i - 1))
  }

  /** With no randomness to spend (every pick lands on its own position) the
      order is left as it is. */
  lemma {:induction false} FisherYatesStill<T>(a: seq<T>, i: nat, picks: seq<nat>, k: nat)
    requires i < |a| && k + i <= |picks|
    requires StillPicks(picks, k, i)
    ensures FisherYates(a, i, picks, k) == a
    decreases i
  {
    if i > 0 {
      assert Swap(a, i, i) == a;
      FisherYatesStill(a, i - 1, picks, k + 1);
    }
  }

  /** `syncClips`: the posted list replaces the cache; the count and the
      sync time are returned. */
  function SyncClips(store: ClipStore, newClips: seq<Clip>, now: string): (r: (ClipStore, nat, string))
    ensures r.0 == ClipStore(newClips, Some(now))
    ensures r.1 == |newClips| && r.2 == now
  {
    (ClipStore(newClips, Some(now)), |newClips|, now)
  }

  /** `getClipsCount`. */
  function ClipsCount(store: ClipStore): (n: nat)
    ensures n == |store.clips|
  {
    |store.clips|
  }

  /** Sync then read back: the count and time are the posted ones. */
  lemma SyncThenRead(store: ClipStore, newClips: seq<Clip>, now: string)
    ensures ClipsCount(SyncClips(store, newClips, now).0) == SyncClips(store, newClips, now).1
    ensures SyncClips(store, newClips, now).0.syncedAt == Some(now)
  {
  }

  /** `getClips`: the shuffled cache, cut to `limit` when it is a positive
      number (a limit beyond the length keeps everything). */
  method GetClips(store: ClipStore, limit: Option<int>, picks: seq<nat>) returns (r: seq<Clip>)
    requires |picks| + 1 >= |store.clips|
    ensures limit.Some? && limit.value > 0 && limit.value < |store.clips| ==> |r| == limit.value
    ensures !(limit.Some? && limit.value > 0 && limit.value < |store.clips|) ==> |r| == |store.clips|
    ensures multiset(r) <= multiset(store.clips)
    ensures |r| == |store.clips| ==> multiset(r) == multiset(store.clips)
    ensures forall c :: c in r ==> c in store.clips
  {
    var shuffled := Shuffle(store.clips, picks);
    r := shuffled;
    if limit.Some? && limit.value > 0 && limit.value < |shuffled| {
      r := shuffled[..limit.value];
      PrefixWithin(shuffled, limit.value);
    }
    MultisetMembers(r, store.clips);
  }

  lemma PrefixWithin<T>(s: seq<T>, n: nat)
    requires n <= |s|
    ensures multiset(s[..n]) <= multiset(s)
  {
    assert s == s[..n] + s[n..];
    assert multiset(s) == multiset(s[..n]) + multiset(s[n..]);
  }

  lemma MultisetMembers<T>(r: seq<T>, s: seq<T>)
    requires multiset(r) <= multiset(s)
    ensures forall c :: c in r ==> c in s
  {
    forall c | c in r ensures c in s {
      assert c in multiset(r);
    }
  }
}
