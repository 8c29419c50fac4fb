/** The end-of-stream credits (`credits.service.ts`): the stored events,
    sessions and messages of one stream are aggregated into the credits
    payload, with the broadcaster's own rows left out when their id is known.

    The database queries are modelled by what they select: the rows of each
    kind are inputs, and the `where` / `orderBy` / `take` of each query is
    written out here (the database's order among equal keys is not known; the
    model keeps input order among equals). */
module Credits {
  import opened Wrappers
  import opened Shared
  import Text
  import Sorting

  // ---------------------------------------------------------------------------
  // Stored rows
  // ---------------------------------------------------------------------------

  /** The parsed `data` JSON of an event row; every field may be missing. */
  datatype EventData = EventData(
    tier: Option<real>, fromChannel: Option<string>, viewers: Option<int>,
    amount: Option<int>, rewardCost: Option<int>)

  /** A stored event: its viewer may be gone; `data` absent means null or "". */
  datatype EventRow = EventRow(viewer: Option<ViewerInfo>, data: Option<EventData>)

  datatype SessionRow = SessionRow(viewer: ViewerInfo, messageCount: int, watchTime: int)

  datatype MessageRow = MessageRow(viewer: ViewerInfo, timestamp: int)

  /** The stream row; times are milliseconds. */
  datatype StreamRow = StreamRow(
    title: Option<string>, startedAtMs: int, startedAtIso: string,
    endedAtMs: Option<int>, peakViewers: int)

  /** Everything stored for one stream, each event kind apart. */
  datatype StreamRecords = StreamRecords(
    stream: StreamRow,
    follows: seq<EventRow>,
    subs: seq<EventRow>,
    raids: seq<EventRow>,
    dice: seq<EventRow>,
    bits: seq<EventRow>,
    points: seq<EventRow>,
    sessions: seq<SessionRow>,
    messages: seq<MessageRow>)

  // ---------------------------------------------------------------------------
  // The broadcaster filter
  // ---------------------------------------------------------------------------

  /** A row is kept unless a broadcaster id is set and the row is not some
      other viewer's. */
  predicate KeepViewer(viewer: Option<ViewerInfo>, broadcasterId: Option<string>) {
    broadcasterId.None? || broadcasterId.value == "" ||
    (viewer.Some? && viewer.value.twitchId != broadcasterId.value)
  }

  predicate IsBroadcaster(v: ViewerInfo, broadcasterId: Option<string>) {
    broadcasterId.Some? && broadcasterId.value != "" && v.twitchId == broadcasterId.value
  }

  function KeepEvents(rows: seq<EventRow>, b: Option<string>): (r: seq<EventRow>)
    ensures |r| <= |rows|
    ensures forall e :: e in r <==> e in rows && KeepViewer(e.viewer, b)
  {
    if |rows| == 0 then []
    else (if KeepViewer(rows[0].viewer, b) then [rows[0]] else []) + KeepEvents(rows[1..], b)
  }

  function KeepSessions(rows: seq<SessionRow>, b: Option<string>): (r: seq<SessionRow>)
    ensures |r| <= |rows|
    ensures forall s :: s in r <==> s in rows && KeepViewer(Some(s.viewer), b)
  {
    if |rows| == 0 then []
    else (if KeepViewer(Some(rows[0].viewer), b) then [rows[0]] else []) + KeepSessions(rows[1..], b)
  }

  function KeepMessages(rows: seq<MessageRow>, b: Option<string>): (r: seq<MessageRow>)
    ensures |r| <= |rows|
    ensures forall m :: m in r <==> m in rows && KeepViewer(Some(m.viewer), b)
  {
    if |rows| == 0 then []
    else (if KeepViewer(Some(rows[0].viewer), b) then [rows[0]] else []) + KeepMessages(rows[1..], b)
  }

  // ---------------------------------------------------------------------------
  // Simple sections
  // ---------------------------------------------------------------------------

  /** The viewers of the events that still have one. */
  function Followers(rows: seq<EventRow>): (r: seq<ViewerInfo>)
    ensures |r| <= |rows|
    ensures forall v :: v in r <==> exists e :: e in rows && e.viewer == Some(v)
  {
    if |rows| == 0 then []
    else
      var rest := Followers(rows[1..]);
      assert forall e :: e in rows[1..] ==> e in rows;
      assert forall e :: e in rows ==> e == rows[0] || e in rows[1..];
      (if rows[0].viewer.Some? then [rows[0].viewer.value] else []) + rest
  }

  /** The tier stored with a sub event, 1 when there is none. */
  function StoredTier(data: Option<EventData>): real {
    if data.Some? then data.value.tier.GetOr(1.0) else 1.0
  }

  /** One entry per sub event that still has a viewer, with its stored tier. */
  function Subscribers(rows: seq<EventRow>): (r: seq<SubEntry>)
    ensures |r| <= |rows|
    ensures forall s :: s in r ==> exists e :: e in rows && e.viewer == Some(s.viewer) && s.tier == StoredTier(e.data)
    ensures forall e :: e in rows && e.viewer.Some? ==> SubEntry(e.viewer.value, StoredTier(e.data)) in r
  {
    if |rows| == 0 then []
    else
      assert forall e :: e in rows[1..] ==> e in rows;
      assert forall e :: e in rows ==> e == rows[0] || e in rows[1..];
      (if rows[0].viewer.Some? then [SubEntry(rows[0].viewer.value, StoredTier(rows[0].data))] else [])
      + Subscribers(rows[1..])
  }

  /** A raid row as the credits show it: the raiding channel, named after
      itself when known and "Inconnu" otherwise. */
  function RaidOf(row: EventRow): (r: RaidEntry)
    ensures r.raider.twitchId == ""
    ensures r.fromChannel == "Inconnu" || (row.data.Some? && row.data.value.fromChannel == Some(r.fromChannel))
    ensures StoredChannel(row).Some? && StoredChannel(row).value != "" ==>
      r.raider == ViewerInfo("", Text.ToLower(StoredChannel(row).value), StoredChannel(row).value)
    ensures StoredChannel(row).None? || StoredChannel(row).value == "" ==>
      r.raider == ViewerInfo("", "inconnu", "Inconnu")
    ensures r.fromChannel == StoredChannel(row).GetOr("Inconnu")
    ensures r.viewers == if row.data.Some? then row.data.value.viewers.GetOr(0) else 0
  {
    var d := row.data.GetOr(EventData(None, None, None, None, None));
    var raider :=
      if d.fromChannel.Some? && d.fromChannel.value != ""
      then ViewerInfo("", Text.ToLower(d.fromChannel.value), d.fromChannel.value)
      else ViewerInfo("", "inconnu", "Inconnu");
    RaidEntry(raider, d.fromChannel.GetOr("Inconnu"), d.viewers.GetOr(0))
  }

  /** The `fromChannel` of a raid row's data, if any. */
  function StoredChannel(row: EventRow): Option<string> {
    if row.data.Some? then row.data.value.fromChannel else None
  }

  /** A raider's username is always its lower-cased display name. */
  lemma RaiderUsernameLowered(row: EventRow)
    ensures RaidOf(row).raider.username == Text.ToLower(RaidOf(row).raider.displayName)
  {
    var f := StoredChannel(row);
    if f.Some? && f.value != "" {
      Text.ToLowerIdempotent(f.value);
    } else {
      assert Text.ToLower("Inconnu") == "inconnu";
    }
  }

  /** An empty stored channel is falsy for the raider but not for `??`: the
      raider is "Inconnu" while the channel stays the empty string. */
  lemma EmptyChannelRaid(row: EventRow)
    requires StoredChannel(row) == Some("")
    ensures RaidOf(row).raider.displayName == "Inconnu" && RaidOf(row).fromChannel == ""
  {
  }

  function Raiders(rows: seq<EventRow>): (r: seq<RaidEntry>)
    ensures |r| == |rows|
    ensures forall i :: 0 <= i < |rows| ==> r[i] == RaidOf(rows[i])
  {
    if |rows| == 0 then [] else [RaidOf(rows[0])] + Raiders(rows[1..])
  }

  /** Sessions with at least one message, most messages first, ten at most:
      all of them when there are fewer than ten, and otherwise every session
      left out has no more messages than the tenth. */
  function TopChatters(sessions: seq<SessionRow>): (r: seq<ChatterEntry>)
    ensures |r| == if |ActiveSessions(sessions)| < 10 then |ActiveSessions(sessions)| else 10
    ensures forall c :: c in r ==> c.messageCount > 0 && exists s :: s in sessions && s.viewer == c.viewer && s.messageCount == c.messageCount
    ensures forall i, j :: 0 <= i < j < |r| ==> r[i].messageCount >= r[j].messageCount
    ensures forall s :: s in ActiveSessions(sessions) && (|r| < 10 || s.messageCount > r[|r| - 1].messageCount) ==>
      ChatterEntry(s.viewer, s.messageCount) in r
    ensures multiset(r) <= multiset(ChatterEntries(ActiveSessions(sessions)))
  {
    var active := ActiveSessions(sessions);
    var top := TopSessions(active);
    var r := ChatterEntries(top);
    EntriesFrom(sessions, top);
    EntriesCover(active, top);
    EntriesSubMultiset(top, active);
    EntriesOrdered(top);
    r
  }

  /** The entries keep the sessions' order by count. */
  lemma EntriesOrdered(top: seq<SessionRow>)
    requires forall i, j :: 0 <= i < j < |top| ==> top[i].messageCount >= top[j].messageCount
    ensures var r := ChatterEntries(top);
      forall i, j :: 0 <= i < j < |r| ==> r[i].messageCount >= r[j].messageCount
  {
  }

  /** The sort key that puts the most messages first. */
  function FewerMessages(s: SessionRow): int {
    -s.messageCount
  }

  /** The first ten of `active` sorted by count descending: the ten (or all,
      when fewer) with the most messages, in descending count. */
  function TopSessions(active: seq<SessionRow>): (top: seq<SessionRow>)
    ensures |top| == if |active| < 10 then |active| else 10
    ensures forall s :: s in top ==> s in active
    ensures forall i, j :: 0 <= i < j < |top| ==> top[i].messageCount >= top[j].messageCount
    ensures forall s :: s in active && (|top| < 10 || s.messageCount > top[|top| - 1].messageCount) ==> s in top
    ensures multiset(top) <= multiset(active)
  {
    var sorted := Sorting.SortBy(active, FewerMessages);
    var top := if |sorted| > 10 then sorted[..10] else sorted;
    TopOfSorted(active, sorted, top);
    top
  }

  /** A prefix of at most ten of a descending list holding the same sessions
      as `active` is the top ten of `active`. */
  lemma TopOfSorted(active: seq<SessionRow>, sorted: seq<SessionRow>, top: seq<SessionRow>)
    requires multiset(sorted) == multiset(active)
    requires Sorting.SortedBy(sorted, FewerMessages)
    requires top == if |sorted| > 10 then sorted[..10] else sorted
    ensures |top| == if |active| < 10 then |active| else 10
    ensures forall s :: s in top ==> s in active
    ensures forall i, j :: 0 <= i < j < |top| ==> top[i].messageCount >= top[j].messageCount
    ensures forall s :: s in active && (|top| < 10 || s.messageCount > top[|top| - 1].messageCount) ==> s in top
    ensures multiset(top) <= multiset(active)
  {
    PrefixOfPermutation(active, sorted, |top|);
    forall s | s in top ensures s in active {
      var i :| 0 <= i < |top| && top[i] == s;
      assert sorted[i] == s;
    }
    forall i, j | 0 <= i < j < |top| ensures top[i].messageCount >= top[j].messageCount {
      assert FewerMessages(sorted[i]) <= FewerMessages(sorted[j]);
    }
    forall s | s in active && (|top| < 10 || s.messageCount > top[|top| - 1].messageCount)
      ensures s in top
    {
      var i :| 0 <= i < |sorted| && sorted[i] == s;
      if i >= |top| {
        assert false;
      }
      assert top[i] == s;
    }
  }

  /** A prefix of a permutation of `s` takes each element of `s` at most as
      often as `s` has it. */
  lemma PrefixOfPermutation<T>(s: seq<T>, p: seq<T>, n: nat)
    requires multiset(p) == multiset(s) && n <= |p|
    ensures |p| == |s|
    ensures forall x :: x in p <==> x in s
    ensures multiset(p[..n]) <= multiset(s)
  {
    assert |multiset(p)| == |multiset(s)|;
    assert forall x :: x in p <==> x in multiset(p);
    assert forall x :: x in s <==> x in multiset(s);
    assert p == p[..n] + p[n..];
  }

  /** Every listed session appears as an entry. */
  lemma EntriesCover(active: seq<SessionRow>, top: seq<SessionRow>)
    requires |top| <= 10
    requires forall s :: s in active && (|top| < 10 || s.messageCount > top[|top| - 1].messageCount) ==> s in top
    ensures var r := ChatterEntries(top);
      forall s :: s in active && (|r| < 10 || s.messageCount > r[|r| - 1].messageCount) ==>
        ChatterEntry(s.viewer, s.messageCount) in r
  {
    var r := ChatterEntries(top);
    forall s | s in active && (|r| < 10 || s.messageCount > r[|r| - 1].messageCount)
      ensures ChatterEntry(s.viewer, s.messageCount) in r
    {
      var i :| 0 <= i < |top| && top[i] == s;
      assert r[i] == ChatterEntry(s.viewer, s.messageCount);
    }
  }

  lemma ChatterEntriesAppend(p: seq<SessionRow>, q: seq<SessionRow>)
    ensures ChatterEntries(p + q) == ChatterEntries(p) + ChatterEntries(q)
  {
    var l := ChatterEntries(p + q);
    var rr := ChatterEntries(p) + ChatterEntries(q);
    assert |l| == |rr|;
    forall i | 0 <= i < |l| ensures l[i] == rr[i] {
      if i < |p| {
        assert (p + q)[i] == p[i];
      } else {
        assert (p + q)[i] == q[i - |p|];
      }
    }
  }

  /** Removing one session removes exactly its entry. */
  lemma EntriesRemove(b: seq<SessionRow>, j: nat)
    requires j < |b|
    ensures multiset(ChatterEntries(b))
         == multiset(ChatterEntries(b[..j] + b[j + 1..])) + multiset{ChatterEntry(b[j].viewer, b[j].messageCount)}
  {
    var p := b[..j];
    var q := b[j + 1..];
    assert b == p + ([b[j]] + q);
    ChatterEntriesAppend(p, [b[j]] + q);
    ChatterEntriesAppend([b[j]], q);
    ChatterEntriesAppend(p, q);
    var e := ChatterEntries([b[j]]);
    assert e == [ChatterEntry(b[j].viewer, b[j].messageCount)];
    SplitMultiset(ChatterEntries(p), e, ChatterEntries(q));
  }

  lemma SplitMultiset<T>(p: seq<T>, e: seq<T>, q: seq<T>)
    ensures multiset(p + (e + q)) == multiset(p + q) + multiset(e)
  {
  }

  /** The element at `j` and the rest make up the whole. */
  lemma RemoveAt<T>(b: seq<T>, j: nat)
    requires j < |b|
    ensures multiset(b) == multiset(b[..j] + b[j + 1..]) + multiset{b[j]}
  {
    assert b == b[..j] + ([b[j]] + b[j + 1..]);
    SplitMultiset(b[..j], [b[j]], b[j + 1..]);
  }

  lemma Cancel<T>(x: T, m: multiset<T>, n: multiset<T>)
    requires m + multiset{x} <= n + multiset{x}
    ensures m <= n
  {
    forall y ensures m[y] <= n[y] {
      assert (m + multiset{x})[y] <= (n + multiset{x})[y];
    }
  }

  /** Taking some of the sessions, each at most as often as it occurs, takes
      their entries at most as often too. */
  lemma {:induction false} EntriesSubMultiset(a: seq<SessionRow>, b: seq<SessionRow>)
    requires multiset(a) <= multiset(b)
    ensures multiset(ChatterEntries(a)) <= multiset(ChatterEntries(b))
    decreases |a|
  {
    if |a| > 0 {
      var x := a[0];
      RemoveAt(a, 0);
      assert a[..0] + a[1..] == a[1..];
      assert x in multiset(b);
      var j :| 0 <= j < |b| && b[j] == x;
      var rest := b[..j] + b[j + 1..];
      RemoveAt(b, j);
      Cancel(x, multiset(a[1..]), multiset(rest));
      EntriesSubMultiset(a[1..], rest);
      EntriesRemove(b, j);
      EntriesRemove(a, 0);
    }
  }

  /** Entries taken from sessions with messages name those sessions. */
  lemma EntriesFrom(sessions: seq<SessionRow>, top: seq<SessionRow>)
    requires forall s :: s in top ==> s in sessions && s.messageCount > 0
    ensures forall c :: c in ChatterEntries(top) ==>
      c.messageCount > 0 && exists s :: s in sessions && s.viewer == c.viewer && s.messageCount == c.messageCount
  {
    var r := ChatterEntries(top);
    forall c | c in r
      ensures c.messageCount > 0 && exists s :: s in sessions && s.viewer == c.viewer && s.messageCount == c.messageCount
    {
      var i :| 0 <= i < |r| && r[i] == c;
      assert top[i] in top;
    }
  }

  function ActiveSessions(sessions: seq<SessionRow>): (r: seq<SessionRow>)
    ensures forall s :: s in r <==> s in sessions && s.messageCount > 0
  {
    if |sessions| == 0 then []
    else (if sessions[0].messageCount > 0 then [sessions[0]] else []) + ActiveSessions(sessions[1..])
  }

  function ChatterEntries(sessions: seq<SessionRow>): (r: seq<ChatterEntry>)
    ensures |r| == |sessions|
    ensures forall i :: 0 <= i < |r| ==> r[i] == ChatterEntry(sessions[i].viewer, sessions[i].messageCount)
  {
    if |sessions| == 0 then [] else [ChatterEntry(sessions[0].viewer, sessions[0].messageCount)] + ChatterEntries(sessions[1..])
  }

  /** Sessions without a message. */
  function Lurkers(sessions: seq<SessionRow>): (r: seq<ViewerInfo>)
    ensures forall v :: v in r <==> exists s :: s in sessions && s.messageCount == 0 && s.viewer == v
  {
    if |sessions| == 0 then []
    else
      assert forall s :: s in sessions <==> s == sessions[0] || s in sessions[1..];
      (if sessions[0].messageCount == 0 then [sessions[0].viewer] else []) + Lurkers(sessions[1..])
  }

  // ---------------------------------------------------------------------------
  // Per-viewer totals (the three `Map` loops)
  // ---------------------------------------------------------------------------

  /** One event's contribution to a viewer's total. */
  datatype Contribution = Contribution(viewer: ViewerInfo, amount: int)

  /** The total so far for an id: the first entry with that id, else 0. */
  function AmountFor(ts: seq<Tally>, id: string): int {
    if |ts| == 0 then 0 else if ts[0].viewer.twitchId == id then ts[0].amount else AmountFor(ts[1..], id)
  }

  function IdsOf(ts: seq<Tally>): (r: seq<string>)
    ensures |r| == |ts|
    ensures forall i :: 0 <= i < |ts| ==> r[i] == ts[i].viewer.twitchId
  {
    if |ts| == 0 then [] else [ts[0].viewer.twitchId] + IdsOf(ts[1..])
  }

  ghost predicate Distinct(ids: seq<string>) {
    forall i, j :: 0 <= i < j < |ids| ==> ids[i] != ids[j]
  }

  /** One step of the loop: add to the viewer's entry, or start one at the end
      (a `Map` keeps insertion order). */
  function AddTo(ts: seq<Tally>, c: Contribution): (r: seq<Tally>)
    ensures forall id :: AmountFor(r, id) == AmountFor(ts, id) + (if id == c.viewer.twitchId then c.amount else 0)
    ensures IdsOf(r) == if c.viewer.twitchId in IdsOf(ts) then IdsOf(ts) else IdsOf(ts) + [c.viewer.twitchId]
  {
    if |ts| == 0 then [Tally(c.viewer, c.amount)]
    else if ts[0].viewer.twitchId == c.viewer.twitchId then [ts[0].(amount := ts[0].amount + c.amount)] + ts[1..]
    else
      var rest := AddTo(ts[1..], c);
      assert IdsOf(ts) == [ts[0].viewer.twitchId] + IdsOf(ts[1..]);
      [ts[0]] + rest
  }

  /** The totals, one entry per viewer, in order of first appearance. */
  function Aggregate(rows: seq<Contribution>): (r: seq<Tally>)
    ensures Distinct(IdsOf(r))
  {
    if |rows| == 0 then []
    else
      var prefix := Aggregate(rows[..|rows| - 1]);
      AddTo(prefix, rows[|rows| - 1])
  }

  /** The sum of a viewer's contributions. */
  function SumFor(rows: seq<Contribution>, id: string): int {
    if |rows| == 0 then 0
    else SumFor(rows[..|rows| - 1], id) + (if rows[|rows| - 1].viewer.twitchId == id then rows[|rows| - 1].amount else 0)
  }

  /** Every viewer's total is the sum of that viewer's contributions. */
  lemma {:induction false} AggregateSums(rows: seq<Contribution>)
    ensures forall id :: AmountFor(Aggregate(rows), id) == SumFor(rows, id)
  {
    if |rows| > 0 {
      AggregateSums(rows[..|rows| - 1]);
    }
  }

  /** A viewer has an entry exactly when one of the contributions is theirs. */
  lemma {:induction false} AggregateIds(rows: seq<Contribution>)
    ensures forall id :: id in IdsOf(Aggregate(rows)) <==> exists k :: 0 <= k < |rows| && rows[k].viewer.twitchId == id
  {
    if |rows| > 0 {
      var init := rows[..|rows| - 1];
      AggregateIds(init);
      forall id ensures id in IdsOf(Aggregate(rows)) <==> exists k :: 0 <= k < |rows| && rows[k].viewer.twitchId == id {
        ContributorsSplit(rows, init, id);
      }
    }
  }

  /** Someone contributed to `rows` exactly when they contributed to all but
      the last row or to the last. */
  lemma ContributorsSplit(rows: seq<Contribution>, init: seq<Contribution>, id: string)
    requires |rows| > 0 && init == rows[..|rows| - 1]
    ensures (exists k :: 0 <= k < |rows| && rows[k].viewer.twitchId == id)
        <==> (exists k :: 0 <= k < |init| && init[k].viewer.twitchId == id) || rows[|rows| - 1].viewer.twitchId == id
  {
    if exists k :: 0 <= k < |init| && init[k].viewer.twitchId == id {
      var k :| 0 <= k < |init| && init[k].viewer.twitchId == id;
      assert rows[k].viewer.twitchId == id;
    }
    if exists k :: 0 <= k < |rows| && rows[k].viewer.twitchId == id {
      var k :| 0 <= k < |rows| && rows[k].viewer.twitchId == id;
      assert k < |init| ==> init[k].viewer.twitchId == id;
    }
  }

  /** With distinct ids, an entry's amount is the total for its id. */
  lemma {:induction false} AmountOfEntry(ts: seq<Tally>, i: nat)
    requires i < |ts| && Distinct(IdsOf(ts))
    ensures AmountFor(ts, ts[i].viewer.twitchId) == ts[i].amount
  {
    if i > 0 {
      assert IdsOf(ts)[0] != IdsOf(ts)[i];
      assert IdsOf(ts[1..]) == IdsOf(ts)[1..];
      AmountOfEntry(ts[1..], i - 1);
    }
  }

  /** Largest total first; among equal totals, first appearance first. */
  function Ranked(ts: seq<Tally>): (r: seq<Tally>)
    ensures multiset(r) == multiset(ts)
    ensures forall i, j :: 0 <= i < j < |r| ==> r[i].amount >= r[j].amount
  {
    var r := Sorting.SortBy(ts, SmallerAmount);
    assert forall i, j :: 0 <= i < j < |r| ==> SmallerAmount(r[i]) <= SmallerAmount(r[j]);
    r
  }

  /** The sort key that puts the largest total first. */
  function SmallerAmount(t: Tally): int {
    -t.amount
  }

  /** The kinds of totals the credits show. */
  datatype Measure = Rolls | Bits | ChannelPoints

  /** What one event adds: one roll, its `amount` of bits, its `rewardCost`. */
  function Worth(m: Measure, data: Option<EventData>): int {
    match m
    case Rolls => 1
    case Bits => if data.Some? then data.value.amount.GetOr(0) else 0
    case ChannelPoints => if data.Some? then data.value.rewardCost.GetOr(0) else 0
  }

  /** The contributions of the events that still have a viewer. */
  function Contributions(m: Measure, rows: seq<EventRow>): (r: seq<Contribution>)
    ensures |r| <= |rows|
    ensures forall c :: c in r ==> exists e :: e in rows && e.viewer == Some(c.viewer)
    ensures forall e :: e in rows && e.viewer.Some? ==> Contribution(e.viewer.value, Worth(m, e.data)) in r
  {
    if |rows| == 0 then []
    else
      assert forall e :: e in rows[1..] ==> e in rows;
      assert forall e :: e in rows ==> e == rows[0] || e in rows[1..];
      (if rows[0].viewer.Some? then [Contribution(rows[0].viewer.value, Worth(m, rows[0].data))] else [])
      + Contributions(m, rows[1..])
  }

  /** A ranked list of per-viewer totals. */
  function Leaderboard(m: Measure, rows: seq<EventRow>): (r: seq<Tally>)
    ensures forall i, j :: 0 <= i < j < |r| ==> r[i].amount >= r[j].amount
    ensures forall i :: 0 <= i < |r| ==> r[i].amount == SumFor(Contributions(m, rows), r[i].viewer.twitchId)
    ensures forall i, j :: 0 <= i < j < |r| ==> r[i].viewer.twitchId != r[j].viewer.twitchId
    ensures forall e :: e in rows && e.viewer.Some? ==>
      Listed(r, e.viewer.value.twitchId)
  {
    var cs := Contributions(m, rows);
    var r := Ranked(Aggregate(cs));
    RankedTotals(cs, r);
    AggregateIds(cs);
    RankedCovers(cs, Aggregate(cs), r);
    RowsCovered(m, rows, cs, r);
    r
  }

  /** Some tally of `ts` is the viewer `id`'s. */
  predicate Listed(ts: seq<Tally>, id: string) {
    exists i :: 0 <= i < |ts| && ts[i].viewer.twitchId == id
  }

  /** A viewer with an event contributed, so has an entry. */
  lemma RowsCovered(m: Measure, rows: seq<EventRow>, cs: seq<Contribution>, r: seq<Tally>)
    requires forall e :: e in rows && e.viewer.Some? ==> Contribution(e.viewer.value, Worth(m, e.data)) in cs
    requires forall k :: 0 <= k < |cs| ==> Listed(r, cs[k].viewer.twitchId)
    ensures forall e :: e in rows && e.viewer.Some? ==>
      Listed(r, e.viewer.value.twitchId)
  {
    forall e | e in rows && e.viewer.Some?
      ensures Listed(r, e.viewer.value.twitchId)
    {
      var k :| 0 <= k < |cs| && cs[k] == Contribution(e.viewer.value, Worth(m, e.data));
    }
  }

  /** Every contributor has an entry in a reordering of the aggregate. */
  lemma RankedCovers(cs: seq<Contribution>, agg: seq<Tally>, r: seq<Tally>)
    requires forall id :: id in IdsOf(agg) <==> exists k :: 0 <= k < |cs| && cs[k].viewer.twitchId == id
    requires multiset(r) == multiset(agg)
    ensures forall k :: 0 <= k < |cs| ==> Listed(r, cs[k].viewer.twitchId)
  {
    forall k | 0 <= k < |cs| ensures Listed(r, cs[k].viewer.twitchId) {
      CoveredOne(cs, agg, r, cs[k].viewer.twitchId);
    }
  }

  lemma CoveredOne(cs: seq<Contribution>, agg: seq<Tally>, r: seq<Tally>, id: string)
    requires id in IdsOf(agg)
    requires multiset(r) == multiset(agg)
    ensures Listed(r, id)
  {
    var ids := IdsOf(agg);
    var j :| 0 <= j < |ids| && ids[j] == id;
    assert agg[j] in multiset(r);
    var i :| 0 <= i < |r| && r[i] == agg[j];
    assert r[i].viewer.twitchId == id;
  }

  /** The ranked aggregate keeps one entry per viewer, each with their total. */
  lemma RankedTotals(cs: seq<Contribution>, r: seq<Tally>)
    requires r == Ranked(Aggregate(cs))
    ensures forall i :: 0 <= i < |r| ==> r[i].amount == SumFor(cs, r[i].viewer.twitchId)
    ensures forall i, j :: 0 <= i < j < |r| ==> r[i].viewer.twitchId != r[j].viewer.twitchId
  {
    var agg := Aggregate(cs);
    AggregateSums(cs);
    forall i | 0 <= i < |r| ensures r[i].amount == SumFor(cs, r[i].viewer.twitchId) {
      assert r[i] in multiset(agg);
      var k :| 0 <= k < |agg| && agg[k] == r[i];
      AmountOfEntry(agg, k);
    }
    UniqueFromIds(agg);
    forall i, j | 0 <= i < j < |r| ensures r[i].viewer.twitchId != r[j].viewer.twitchId {
      RankedKeepsDistinct(agg, r, i, j);
    }
  }

  lemma RankedKeepsDistinct(agg: seq<Tally>, r: seq<Tally>, i: nat, j: nat)
    requires Unique(agg) && multiset(r) == multiset(agg)
    requires i < j < |r|
    ensures r[i].viewer.twitchId != r[j].viewer.twitchId
  {
    assert r[i] in multiset(agg) && r[j] in multiset(agg);
    var a :| 0 <= a < |agg| && agg[a] == r[i];
    var b :| 0 <= b < |agg| && agg[b] == r[j];
    if r[i].viewer.twitchId == r[j].viewer.twitchId {
      assert a == b;
      var x := r[i];
      assert r == r[..j] + r[j..];
      assert x in r[..j];
      assert x == r[j..][0];
      assert multiset(r)[x] == multiset(r[..j])[x] + multiset(r[j..])[x];
      assert multiset(r)[x] >= 2;
      MultiplicityOne(agg, a);
    }
  }

  /** No two tallies share a viewer. */
  ghost predicate Unique(ts: seq<Tally>) {
    forall i, j :: 0 <= i < j < |ts| ==> ts[i].viewer.twitchId != ts[j].viewer.twitchId
  }

  lemma UniqueFromIds(ts: seq<Tally>)
    requires Distinct(IdsOf(ts))
    ensures Unique(ts)
  {
    var ids := IdsOf(ts);
    forall i, j | 0 <= i < j < |ts| ensures ts[i].viewer.twitchId != ts[j].viewer.twitchId {
      assert ids[i] != ids[j];
    }
  }

  /** A tally appears once in a list of distinct viewers. */
  lemma {:induction false} MultiplicityOne(agg: seq<Tally>, a: nat)
    requires Unique(agg) && a < |agg|
    ensures multiset(agg)[agg[a]] == 1
  {
    var rest := agg[1..];
    assert multiset(agg) == multiset{agg[0]} + multiset(rest) by {
      assert agg == [agg[0]] + rest;
    }
    if a == 0 {
      assert agg[0] !in rest by {
        forall k | 0 <= k < |rest| ensures rest[k] != agg[0] {
          assert rest[k] == agg[k + 1];
        }
      }
    } else {
      assert Unique(rest) by {
        forall i, j | 0 <= i < j < |rest| ensures rest[i].viewer.twitchId != rest[j].viewer.twitchId {
          assert rest[i] == agg[i + 1] && rest[j] == agg[j + 1];
        }
      }
      MultiplicityOne(rest, a - 1);
      assert agg[a] == rest[a - 1];
      assert agg[a] != agg[0];
    }
  }

  // ---------------------------------------------------------------------------
  // The payload
  // ---------------------------------------------------------------------------

  /** `Math.round(ms / 60000)`: JavaScript rounds halves up. */
  function RoundMinutes(ms: int): (m: int)
    ensures 60000 * m - 30000 <= ms < 60000 * m + 30000
  {
    (ms + 30000) / 60000
  }

  function First<T>(s: seq<T>): (r: Option<T>)
    ensures r.None? <==> |s| == 0
    ensures r.Some? ==> r.value == s[0]
  {
    if |s| > 0 then Some(s[0]) else None
  }

  /** `findFirst` ordered by timestamp: the earliest message. */
  function FirstMessage(messages: seq<MessageRow>): (r: Option<ViewerInfo>)
    ensures r.None? <==> |messages| == 0
    ensures r.Some? ==>
      exists m :: m in messages && m.viewer == r.value && (forall m' :: m' in messages ==> m.timestamp <= m'.timestamp)
  {
    var key := (m: MessageRow) => m.timestamp;
    var sorted := Sorting.SortBy(messages, key);
    Sorting.SortByMembers(messages, key);
    if |sorted| == 0 then None
    else
      assert forall m' :: m' in messages ==> m' in sorted;
      assert forall m' :: m' in sorted ==> sorted[0].timestamp <= m'.timestamp;
      Some(sorted[0].viewer)
  }

  /** `findFirst` ordered by watch time, kept when that time is positive. */
  function LongestWatch(sessions: seq<SessionRow>): (r: Option<WatchEntry>)
    ensures r.Some? ==> r.value.duration > 0
    ensures r.Some? ==>
      exists s :: s in sessions && s.viewer == r.value.viewer && s.watchTime == r.value.duration &&
        (forall s' :: s' in sessions ==> s'.watchTime <= s.watchTime)
    ensures r.None? <==> forall s :: s in sessions ==> s.watchTime <= 0
  {
    var key := (s: SessionRow) => -s.watchTime;
    var sorted := Sorting.SortBy(sessions, key);
    Sorting.SortByMembers(sessions, key);
    if |sorted| == 0 then None
    else
      assert forall s' :: s' in sessions ==> s' in sorted;
      assert forall s' :: s' in sorted ==> s'.watchTime <= sorted[0].watchTime;
      if sorted[0].watchTime > 0 then Some(WatchEntry(sorted[0].viewer, sorted[0].watchTime)) else None
  }

  /** `buildCredits`: every list is omitted when empty; the broadcaster's rows
      are left out of every section except the raids; the top chatter, bits
      donor and channel-point user are the heads of their lists. */
  function BuildCredits(rec: StreamRecords, broadcasterId: Option<string>, now: int): (r: CreditsPayload)
    ensures r.stream.title == rec.stream.title.GetOr("Stream sans titre")
    ensures r.stream.duration == RoundMinutes(rec.stream.endedAtMs.GetOr(now) - rec.stream.startedAtMs)
    ensures r.stats.totalMessages == |KeepMessages(rec.messages, broadcasterId)|
    ensures r.stats.totalViewers == |KeepSessions(rec.sessions, broadcasterId)|
    ensures r.stats.peakViewers == if rec.stream.peakViewers != 0 then rec.stream.peakViewers else r.stats.totalViewers
    ensures r.stats.topChatter == First(r.topChatters.GetOr([]))
    ensures r.stats.topBitsDonator == First(r.topBitsDonator.GetOr([]))
    ensures r.stats.topChannelPointUsed == First(r.channelPointUsed.GetOr([]))
    ensures r.followers == NonEmpty(Followers(KeepEvents(rec.follows, broadcasterId)))
    ensures r.subscribers == NonEmpty(Subscribers(KeepEvents(rec.subs, broadcasterId)))
    ensures r.raiders == NonEmpty(Raiders(rec.raids))
    ensures r.topChatters == NonEmpty(TopChatters(KeepSessions(rec.sessions, broadcasterId)))
    ensures r.diceRolls == NonEmpty(Leaderboard(Rolls, KeepEvents(rec.dice, broadcasterId)))
    ensures r.topBitsDonator == NonEmpty(Leaderboard(Bits, KeepEvents(rec.bits, broadcasterId)))
    ensures r.channelPointUsed == NonEmpty(Leaderboard(ChannelPoints, KeepEvents(rec.points, broadcasterId)))
    ensures r.lurkers == NonEmpty(Lurkers(KeepSessions(rec.sessions, broadcasterId)))
    ensures r.firstMessage == FirstMessage(KeepMessages(rec.messages, broadcasterId))
    ensures r.stats.longestWatchSeries == LongestWatch(KeepSessions(rec.sessions, broadcasterId))
  {
    var b := broadcasterId;
    var sessions := KeepSessions(rec.sessions, b);
    var messages := KeepMessages(rec.messages, b);
    var followers := Followers(KeepEvents(rec.follows, b));
    var subscribers := Subscribers(KeepEvents(rec.subs, b));
    var raiders := Raiders(rec.raids);
    var chatters := TopChatters(sessions);
    var dice := Leaderboard(Rolls, KeepEvents(rec.dice, b));
    var bits := Leaderboard(Bits, KeepEvents(rec.bits, b));
    var points := Leaderboard(ChannelPoints, KeepEvents(rec.points, b));
    var lurkers := Lurkers(sessions);
    var totalViewers := |sessions|;
    CreditsPayload(
      StreamSummary(rec.stream.title.GetOr("Stream sans titre"),
                    RoundMinutes(rec.stream.endedAtMs.GetOr(now) - rec.stream.startedAtMs),
                    rec.stream.startedAtIso),
      NonEmpty(followers), NonEmpty(subscribers), NonEmpty(raiders), NonEmpty(chatters),
      NonEmpty(dice), NonEmpty(bits), NonEmpty(points), NonEmpty(lurkers),
      FirstMessage(messages),
      CreditsStats(|messages|, totalViewers,
                   if rec.stream.peakViewers != 0 then rec.stream.peakViewers else totalViewers,
                   First(chatters), First(bits), First(points), LongestWatch(sessions)))
  }

  /** A dice entry counts its viewer's rolls. */
  lemma DiceCountsRolls(rows: seq<EventRow>, i: nat)
    requires i < |Leaderboard(Rolls, rows)|
    ensures var t := Leaderboard(Rolls, rows)[i];
      t.amount == CountFor(Contributions(Rolls, rows), t.viewer.twitchId)
  {
    var cs := Contributions(Rolls, rows);
    RollsAreOnes(rows);
    SumOfOnes(cs, Leaderboard(Rolls, rows)[i].viewer.twitchId);
  }

  /** A viewer who rolled the dice appears exactly once in the dice list,
      with the number of their rolls. */
  lemma DiceEntryPerRoller(rows: seq<EventRow>, e: EventRow)
    requires e in rows && e.viewer.Some?
    ensures var r := Leaderboard(Rolls, rows); var id := e.viewer.value.twitchId;
      exists i :: 0 <= i < |r| && r[i].viewer.twitchId == id
        && r[i].amount == CountFor(Contributions(Rolls, rows), id)
        && forall j :: 0 <= j < |r| && j != i ==> r[j].viewer.twitchId != id
  {
    var r := Leaderboard(Rolls, rows);
    var id := e.viewer.value.twitchId;
    var i :| 0 <= i < |r| && r[i].viewer.twitchId == id;
    DiceCountsRolls(rows, i);
    forall j | 0 <= j < |r| && j != i ensures r[j].viewer.twitchId != id {
      if j < i {
        assert r[j].viewer.twitchId != r[i].viewer.twitchId;
      } else {
        assert r[i].viewer.twitchId != r[j].viewer.twitchId;
      }
    }
  }

  /** The number of contributions of one viewer. */
  function CountFor(rows: seq<Contribution>, id: string): nat {
    if |rows| == 0 then 0
    else CountFor(rows[..|rows| - 1], id) + (if rows[|rows| - 1].viewer.twitchId == id then 1 else 0)
  }

  lemma RollsAreOnes(rows: seq<EventRow>)
    ensures forall c :: c in Contributions(Rolls, rows) ==> c.amount == 1
  {
    if |rows| > 0 {
      RollsAreOnes(rows[1..]);
    }
  }

  lemma {:induction false} SumOfOnes(cs: seq<Contribution>, id: string)
    requires forall c :: c in cs ==> c.amount == 1
    ensures SumFor(cs, id) == CountFor(cs, id)
  {
    if |cs| > 0 {
      var init := cs[..|cs| - 1];
      assert forall c :: c in init ==> c in cs;
      assert cs[|cs| - 1] in cs;
      SumOfOnes(init, id);
    }
  }

  /** Every leaderboard entry belongs to a viewer of one of the rows. */
  lemma LeaderboardFromRows(m: Measure, rows: seq<EventRow>, i: nat)
    requires i < |Leaderboard(m, rows)|
    ensures exists e :: e in rows && e.viewer.Some? && e.viewer.value.twitchId == Leaderboard(m, rows)[i].viewer.twitchId
  {
    var cs := Contributions(m, rows);
    var agg := Aggregate(cs);
    var r := Leaderboard(m, rows);
    assert r == Ranked(agg);
    assert r[i] in multiset(agg);
    var k :| 0 <= k < |agg| && agg[k] == r[i];
    var id := r[i].viewer.twitchId;
    assert IdsOf(agg)[k] == id;
    assert id in IdsOf(agg);
    AggregateIds(cs);
    assert exists j :: 0 <= j < |cs| && cs[j].viewer.twitchId == id;
    var j :| 0 <= j < |cs| && cs[j].viewer.twitchId == id;
    assert cs[j] in cs;
  }

  /** The broadcaster appears in none of the viewer sections of `r`, and is
      neither its first chatter nor its longest watcher. */
  predicate BroadcasterAbsent(r: CreditsPayload, b: Option<string>) {
    && (forall v :: v in r.followers.GetOr([]) ==> !IsBroadcaster(v, b))
    && (forall s :: s in r.subscribers.GetOr([]) ==> !IsBroadcaster(s.viewer, b))
    && (forall c :: c in r.topChatters.GetOr([]) ==> !IsBroadcaster(c.viewer, b))
    && (forall v :: v in r.lurkers.GetOr([]) ==> !IsBroadcaster(v, b))
    && (forall t :: t in r.diceRolls.GetOr([]) ==> !IsBroadcaster(t.viewer, b))
    && (forall t :: t in r.topBitsDonator.GetOr([]) ==> !IsBroadcaster(t.viewer, b))
    && (forall t :: t in r.channelPointUsed.GetOr([]) ==> !IsBroadcaster(t.viewer, b))
    && (r.firstMessage.Some? ==> !IsBroadcaster(r.firstMessage.value, b))
    && (r.stats.longestWatchSeries.Some? ==> !IsBroadcaster(r.stats.longestWatchSeries.value.viewer, b))
  }

  /** With a broadcaster id set, the broadcaster appears in none of the
      viewer sections and is neither the first chatter nor the longest
      watcher. */
  lemma BroadcasterExcluded(rec: StreamRecords, b: Option<string>, now: int)
    ensures BroadcasterAbsent(BuildCredits(rec, b, now), b)
  {
    PayloadExcludes(BuildCredits(rec, b, now), rec, b);
  }

  /** A payload whose sections are built from the filtered rows. */
  lemma PayloadExcludes(r: CreditsPayload, rec: StreamRecords, b: Option<string>)
    requires r.followers == NonEmpty(Followers(KeepEvents(rec.follows, b)))
    requires r.subscribers == NonEmpty(Subscribers(KeepEvents(rec.subs, b)))
    requires r.topChatters == NonEmpty(TopChatters(KeepSessions(rec.sessions, b)))
    requires r.diceRolls == NonEmpty(Leaderboard(Rolls, KeepEvents(rec.dice, b)))
    requires r.topBitsDonator == NonEmpty(Leaderboard(Bits, KeepEvents(rec.bits, b)))
    requires r.channelPointUsed == NonEmpty(Leaderboard(ChannelPoints, KeepEvents(rec.points, b)))
    requires r.lurkers == NonEmpty(Lurkers(KeepSessions(rec.sessions, b)))
    requires r.firstMessage == FirstMessage(KeepMessages(rec.messages, b))
    requires r.stats.longestWatchSeries == LongestWatch(KeepSessions(rec.sessions, b))
    ensures BroadcasterAbsent(r, b)
  {
    var kept := KeepSessions(rec.sessions, b);
    ListOrEmpty(Followers(KeepEvents(rec.follows, b)));
    ListOrEmpty(Subscribers(KeepEvents(rec.subs, b)));
    ListOrEmpty(TopChatters(kept));
    ListOrEmpty(Lurkers(kept));
    ListOrEmpty(Leaderboard(Rolls, KeepEvents(rec.dice, b)));
    ListOrEmpty(Leaderboard(Bits, KeepEvents(rec.bits, b)));
    ListOrEmpty(Leaderboard(ChannelPoints, KeepEvents(rec.points, b)));
    SectionsExclude(rec, b);
    LeaderboardExcludes(Rolls, rec.dice, b);
    LeaderboardExcludes(Bits, rec.bits, b);
    LeaderboardExcludes(ChannelPoints, rec.points, b);
    WatchExcludes(rec.sessions, b);
  }

  /** An omitted-when-empty list reads back as the list itself. */
  lemma ListOrEmpty<T>(s: seq<T>)
    ensures NonEmpty(s).GetOr([]) == s
  {
  }

  /** The viewer sections built from the filtered rows leave the broadcaster out. */
  lemma SectionsExclude(rec: StreamRecords, b: Option<string>)
    ensures forall v :: v in Followers(KeepEvents(rec.follows, b)) ==> !IsBroadcaster(v, b)
    ensures forall s :: s in Subscribers(KeepEvents(rec.subs, b)) ==> !IsBroadcaster(s.viewer, b)
    ensures forall c :: c in TopChatters(KeepSessions(rec.sessions, b)) ==> !IsBroadcaster(c.viewer, b)
    ensures forall v :: v in Lurkers(KeepSessions(rec.sessions, b)) ==> !IsBroadcaster(v, b)
    ensures var f := FirstMessage(KeepMessages(rec.messages, b)); f.Some? ==> !IsBroadcaster(f.value, b)
  {
  }

  lemma WatchExcludes(sessions: seq<SessionRow>, b: Option<string>)
    ensures var w := LongestWatch(KeepSessions(sessions, b));
      w.Some? ==> !IsBroadcaster(w.value.viewer, b)
  {
  }

  lemma LeaderboardExcludes(m: Measure, rows: seq<EventRow>, b: Option<string>)
    ensures forall t :: t in Leaderboard(m, KeepEvents(rows, b)) ==> !IsBroadcaster(t.viewer, b)
  {
    var kept := KeepEvents(rows, b);
    var r := Leaderboard(m, kept);
    forall t | t in r ensures !IsBroadcaster(t.viewer, b) {
      var i :| 0 <= i < |r| && r[i] == t;
      LeaderboardFromRows(m, kept, i);
    }
  }
}
