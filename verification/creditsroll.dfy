/** The scrolling credits (`CreditsRoll.tsx`): the sections it lays out, in
    order, the number of lines it counts for them and the scroll duration it
    derives (two seconds a line, at least fifteen). */
module CreditsRoll {
  import opened Wrappers
  import Shared

  datatype Section =
    | Header | Stats | FirstMessage | Followers | Subscribers | Raiders | TopChatters | Lurkers | Footer

  /** The position of each section in the roll. */
  function Rank(s: Section): (n: nat)
    ensures n <= 8
  {
    match s
    case Header => 0
    case Stats => 1
    case FirstMessage => 2
    case Followers => 3
    case Subscribers => 4
    case Raiders => 5
    case TopChatters => 6
    case Lurkers => 7
    case Footer => 8
  }

  function Len<T>(list: Option<seq<T>>): nat {
    if list.Some? then |list.value| else 0
  }

  /** Whether a section is laid out: header, stats and footer always; the
      first-message section when there is one; a list only when non-empty. */
  predicate Present(c: Shared.CreditsPayload, s: Section) {
    match s
    case FirstMessage => c.firstMessage.Some?
    case Followers => Len(c.followers) > 0
    case Subscribers => Len(c.subscribers) > 0
    case Raiders => Len(c.raiders) > 0
    case TopChatters => Len(c.topChatters) > 0
    case Lurkers => Len(c.lurkers) > 0
    case _ => true
  }

  /** The lines a section adds to the count. */
  function Lines(c: Shared.CreditsPayload, s: Section): nat {
    match s
    case Header => 4
    case Stats => 6
    case FirstMessage => 3
    case Followers => Len(c.followers) + 2
    case Subscribers => Len(c.subscribers) + 2
    case Raiders => Len(c.raiders) + 2
    case TopChatters => Len(c.topChatters) + 2
    case Lurkers => Len(c.lurkers) + 2
    case Footer => 3
  }

  /** Every section, in the order the roll pushes them. */
  const AllSections: seq<Section> :=
    [Header, Stats, FirstMessage, Followers, Subscribers, Raiders, TopChatters, Lurkers, Footer]

  predicate Ascending(ss: seq<Section>) {
    forall i, j :: 0 <= i < j < |ss| ==> Rank(ss[i]) < Rank(ss[j])
  }

  /** The sections of `ss` that are laid out, in their order. */
  function Keep(c: Shared.CreditsPayload, ss: seq<Section>): (r: seq<Section>)
    ensures forall s :: s in r <==> s in ss && Present(c, s)
    ensures Ascending(ss) ==> Ascending(r)
    decreases |ss|
  {
    if ss == [] then []
    else
      var rest := Keep(c, ss[1..]);
      if Present(c, ss[0]) then
        assert Ascending(ss) ==> forall k :: 0 <= k < |rest| ==> Rank(ss[0]) < Rank(rest[k]) by {
          if Ascending(ss) {
            forall k | 0 <= k < |rest| ensures Rank(ss[0]) < Rank(rest[k]) {
              assert rest[k] in ss[1..];
            }
          }
        }
        [ss[0]] + rest
      else rest
  }

  lemma AllSectionsAscending()
    ensures Ascending(AllSections)
  {
  }

  /** Laid out are exactly the present sections. */
  lemma KeepCovers(c: Shared.CreditsPayload)
    ensures forall s :: s in Keep(c, AllSections) <==> Present(c, s)
  {
    forall s: Section ensures s in AllSections {
      assert AllSections[Rank(s)] == s;
    }
  }

  /** The header opens the roll and the footer closes it. */
  lemma KeepEnds(c: Shared.CreditsPayload, r: seq<Section>)
    requires r == Keep(c, AllSections)
    ensures |r| >= 2 && r[0] == Header && r[|r| - 1] == Footer
  {
    KeepHead(c, r);
    KeepCovers(c);
    assert Present(c, Footer);
    var i :| 0 <= i < |r| && r[i] == Footer;
    AllSectionsAscending();
    AscendingLast(r, i);
  }

  lemma KeepHead(c: Shared.CreditsPayload, r: seq<Section>)
    requires r == Keep(c, AllSections)
    ensures |r| > 0 && r[0] == Header
  {
    assert AllSections[0] == Header;
    assert r == [Header] + Keep(c, AllSections[1..]);
  }

  /** Only the last section of an ascending run can have the top rank. */
  lemma AscendingLast(r: seq<Section>, i: nat)
    requires Ascending(r) && i < |r| && Rank(r[i]) == 8
    ensures i == |r| - 1
  {
    assert i < |r| - 1 ==> Rank(r[i]) < Rank(r[|r| - 1]);
  }

  /** The sections laid out, in rank order, from the header to the footer. */
  function Sections(c: Shared.CreditsPayload): (r: seq<Section>)
    ensures Ascending(r)
    ensures forall s :: s in r <==> Present(c, s)
    ensures |r| >= 2 && r[0] == Header && r[|r| - 1] == Footer
  {
    AllSectionsAscending();
    KeepCovers(c);
    var r := Keep(c, AllSections);
    KeepEnds(c, r);
    r
  }

  /** `lineCount` as the roll accumulates it: the header's 4 and the
      stats' 6, then each optional section, then the footer's 3. */
  function LineCount(c: Shared.CreditsPayload): (n: nat)
    ensures n >= 13
  {
    4 + 6
    + (if c.firstMessage.Some? then 3 else 0)
    + (if Len(c.followers) > 0 then Len(c.followers) + 2 else 0)
    + (if Len(c.subscribers) > 0 then Len(c.subscribers) + 2 else 0)
    + (if Len(c.raiders) > 0 then Len(c.raiders) + 2 else 0)
    + (if Len(c.topChatters) > 0 then Len(c.topChatters) + 2 else 0)
    + (if Len(c.lurkers) > 0 then Len(c.lurkers) + 2 else 0)
    + 3
  }

  function SumLines(c: Shared.CreditsPayload, ss: seq<Section>): nat
    decreases |ss|
  {
    if ss == [] then 0 else Lines(c, ss[0]) + SumLines(c, ss[1..])
  }

  /** What a run of sections adds, skipping those not laid out. */
  function Weighted(c: Shared.CreditsPayload, ss: seq<Section>): nat
    decreases |ss|
  {
    if ss == [] then 0 else (if Present(c, ss[0]) then Lines(c, ss[0]) else 0) + Weighted(c, ss[1..])
  }

  lemma {:induction false} KeepLines(c: Shared.CreditsPayload, ss: seq<Section>)
    ensures SumLines(c, Keep(c, ss)) == Weighted(c, ss)
    decreases |ss|
  {
    if ss != [] {
      KeepLines(c, ss[1..]);
      var rest := Keep(c, ss[1..]);
      if Present(c, ss[0]) {
        assert ([ss[0]] + rest)[1..] == rest;
      }
    }
  }

  /** The count is the sum of the lines of exactly the sections laid out. */
  lemma LineCountBySections(c: Shared.CreditsPayload)
    ensures LineCount(c) == SumLines(c, Sections(c))
  {
    KeepLines(c, AllSections);
    WeightedAll(c);
  }

  function Optional(present: bool, lines: nat): nat {
    if present then lines else 0
  }

  lemma WeightedTail(c: Shared.CreditsPayload)
    ensures Weighted(c, AllSections[5..])
         == Optional(Len(c.raiders) > 0, Len(c.raiders) + 2)
          + Optional(Len(c.topChatters) > 0, Len(c.topChatters) + 2)
          + Optional(Len(c.lurkers) > 0, Len(c.lurkers) + 2) + 3
  {
    var s := AllSections;
    WeightedStep(c, s, 8);
    WeightedStep(c, s, 7);
    WeightedStep(c, s, 6);
    WeightedStep(c, s, 5);
    assert s[9..] == [];
  }

  lemma WeightedHead(c: Shared.CreditsPayload)
    ensures Weighted(c, AllSections) == 10 + Weighted(c, AllSections[2..])
  {
    WeightedStep(c, AllSections, 1);
    WeightedStep(c, AllSections, 0);
    assert AllSections[0..] == AllSections;
  }

  lemma LineCountTerms(c: Shared.CreditsPayload)
    ensures LineCount(c)
         == 10 + Optional(c.firstMessage.Some?, 3)
          + Optional(Len(c.followers) > 0, Len(c.followers) + 2)
          + Optional(Len(c.subscribers) > 0, Len(c.subscribers) + 2)
          + Optional(Len(c.raiders) > 0, Len(c.raiders) + 2)
          + Optional(Len(c.topChatters) > 0, Len(c.topChatters) + 2)
          + Optional(Len(c.lurkers) > 0, Len(c.lurkers) + 2) + 3
  {
  }

  lemma WeightedAll(c: Shared.CreditsPayload)
    ensures Weighted(c, AllSections) == LineCount(c)
  {
    var s := AllSections;
    var fm := Optional(c.firstMessage.Some?, 3);
    var fo := Optional(Len(c.followers) > 0, Len(c.followers) + 2);
    var su := Optional(Len(c.subscribers) > 0, Len(c.subscribers) + 2);
    var rest := Weighted(c, s[5..]);
    assert Weighted(c, s) == 10 + fm + fo + su + rest by {
      WeightedHead(c);
      WeightedAt(c, s, 2, FirstMessage);
      WeightedAt(c, s, 3, Followers);
      WeightedAt(c, s, 4, Subscribers);
    }
    WeightedTail(c);
    LineCountTerms(c);
  }

  lemma WeightedAt(c: Shared.CreditsPayload, ss: seq<Section>, i: nat, x: Section)
    requires i < |ss| && ss[i] == x
    ensures Weighted(c, ss[i..]) == Optional(Present(c, x), Lines(c, x)) + Weighted(c, ss[i + 1..])
  {
    WeightedStep(c, ss, i);
  }

  lemma WeightedStep(c: Shared.CreditsPayload, ss: seq<Section>, i: nat)
    requires i < |ss|
    ensures Weighted(c, ss[i..]) == (if Present(c, ss[i]) then Lines(c, ss[i]) else 0) + Weighted(c, ss[i + 1..])
  {
    assert ss[i..][0] == ss[i] && ss[i..][1..] == ss[i + 1..];
  }

  /** `Math.max(lineCount * 2, 15)`: two seconds for every line of the
      sections laid out. The fifteen-second floor never applies, since even
      an empty roll counts 13 lines. */
  function ScrollDuration(c: Shared.CreditsPayload): (seconds: int)
    ensures seconds == 2 * SumLines(c, Sections(c))
    ensures seconds >= 26
  {
    LineCountBySections(c);
    var d := LineCount(c) * 2;
    if d > 15 then d else 15
  }
}
