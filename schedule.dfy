/**
 * The fixed choreography of one product cycle: every timed
 * sub-animation of the cycle's timeline as an (offset, duration,
 * repeat) entry on one shared clock, in the order the timeline is
 * built.  What each entry animates and how it eases belong to the
 * tween library and are not part of the entries.
 */
module Schedule {
  import Glyphs

  datatype Phase = Reveal | Idle | Exit

  /** The element, or group of elements, an entry animates. */
  datatype Target = Background | Spotlight | Card | Image | NameGlyphs | UnderlineBar | Details | TextBlock

  /** An explicit duration in seconds, or none, so that the tween library's own default applies. */
  datatype Duration = Seconds(seconds: real) | LibraryDefault

  /**
   * One sub-animation: starts `offset` seconds after the cycle starts,
   * runs `repeat + 1` times (back and forth when `yoyo`), and, when it
   * animates several elements, starts each `stagger` seconds after the one before.
   */
  datatype Entry = Entry(phase: Phase, target: Target, offset: real, duration: Duration,
                         repeat: nat, yoyo: bool, stagger: real)

  /** The mark at which the exit phase begins. */
  const ExitStart: real := 6.5

  const BackgroundDrift := Entry(Reveal, Background, 0.0, Seconds(8.0), 0, false, 0.0)
  const SpotlightOn := Entry(Reveal, Spotlight, 0.0, Seconds(2.0), 0, false, 0.0)
  const CardEntrance := Entry(Reveal, Card, 0.2, Seconds(1.5), 0, false, 0.0)
  const LightsOn := Entry(Reveal, Image, 0.4, Seconds(1.2), 0, false, 0.0)
  const NameReveal := Entry(Reveal, NameGlyphs, 0.8, LibraryDefault, 0, false, 0.05)
  const UnderlineGrow := Entry(Reveal, UnderlineBar, 1.0, Seconds(0.8), 0, false, 0.0)
  const DetailsIn := Entry(Reveal, Details, 1.2, Seconds(0.8), 0, false, 0.0)
  const CardFloat := Entry(Idle, Card, 1.7, Seconds(4.0), 1, true, 0.0)
  const SpotlightBreathe := Entry(Idle, Spotlight, 2.0, Seconds(3.0), 1, true, 0.0)
  const TextFadeOut := Entry(Exit, TextBlock, ExitStart, Seconds(0.5), 0, false, 0.0)
  const CardExit := Entry(Exit, Card, ExitStart + 0.1, Seconds(0.8), 0, false, 0.0)
  const ImageBlurOut := Entry(Exit, Image, ExitStart + 0.1, Seconds(0.5), 0, false, 0.0)
  const SpotlightOff := Entry(Exit, Spotlight, ExitStart + 0.3, Seconds(0.5), 0, false, 0.0)

  const RevealEntries: seq<Entry> :=
    [BackgroundDrift, SpotlightOn, CardEntrance, LightsOn, NameReveal, UnderlineGrow, DetailsIn]
  const IdleEntries: seq<Entry> := [CardFloat, SpotlightBreathe]
  const ExitEntries: seq<Entry> := [TextFadeOut, CardExit, ImageBlurOut, SpotlightOff]

  /** The timeline of one cycle, in the order its entries are added. */
  const Timeline: seq<Entry> := RevealEntries + IdleEntries + ExitEntries

  function Offsets(s: seq<Entry>): (r: seq<real>)
    ensures |r| == |s|
    ensures forall i :: 0 <= i < |s| ==> r[i] == s[i].offset
  {
    if s == [] then [] else [s[0].offset] + Offsets(s[1..])
  }

  function Targets(s: seq<Entry>): (r: seq<Target>)
    ensures |r| == |s|
    ensures forall i :: 0 <= i < |s| ==> r[i] == s[i].target
  {
    if s == [] then [] else [s[0].target] + Targets(s[1..])
  }

  /** The entries of one phase, in timeline order. */
  function InPhase(s: seq<Entry>, ph: Phase): seq<Entry> {
    if s == [] then []
    else (if s[0].phase == ph then [s[0]] else []) + InPhase(s[1..], ph)
  }

  predicate NonDecreasing(r: seq<real>) {
    forall i, j :: 0 <= i < j < |r| ==> r[i] <= r[j]
  }

  function Rank(ph: Phase): nat {
    match ph
    case Reveal => 0
    case Idle => 1
    case Exit => 2
  }

  /** Seconds from an entry's start to its end, with `dflt` standing for the library's default duration. */
  function Span(e: Entry, dflt: real): real {
    var d := match e.duration
      case Seconds(s) => s
      case LibraryDefault => dflt;
    d * (e.repeat + 1) as real
  }

  /** When an entry over `count` elements ends, measured from the cycle's start. */
  function EndOf(e: Entry, count: nat, dflt: real): real {
    e.offset + (if count == 0 then 0.0 else e.stagger * (count - 1) as real) + Span(e, dflt)
  }

  /** Filtering by phase keeps the order of a concatenation. */
  lemma {:induction false} InPhaseConcat(a: seq<Entry>, b: seq<Entry>, ph: Phase)
    ensures InPhase(a + b, ph) == InPhase(a, ph) + InPhase(b, ph)
  {
    if a == [] {
      assert a + b == b;
    } else {
      var head := if a[0].phase == ph then [a[0]] else [];
      assert (a + b)[0] == a[0];
      assert (a + b)[1..] == a[1..] + b;
      InPhaseConcat(a[1..], b, ph);
      assert InPhase(a + b, ph) == head + (InPhase(a[1..], ph) + InPhase(b, ph));
      assert InPhase(a, ph) == head + InPhase(a[1..], ph);
    }
  }

  /** Filtering a table by the phase of all its entries keeps it whole; by any other phase leaves nothing. */
  lemma {:induction false} InPhaseUniform(s: seq<Entry>, ph: Phase, other: Phase)
    requires forall i :: 0 <= i < |s| ==> s[i].phase == ph
    requires other != ph
    ensures InPhase(s, ph) == s
    ensures InPhase(s, other) == []
  {
    if s != [] {
      InPhaseUniform(s[1..], ph, other);
    }
  }

  /** The timeline's phase filters are exactly the three phase tables. */
  lemma TimelinePhases()
    ensures InPhase(Timeline, Reveal) == RevealEntries
    ensures InPhase(Timeline, Idle) == IdleEntries
    ensures InPhase(Timeline, Exit) == ExitEntries
  {
    InPhaseConcat(RevealEntries + IdleEntries, ExitEntries, Reveal);
    InPhaseConcat(RevealEntries + IdleEntries, ExitEntries, Idle);
    InPhaseConcat(RevealEntries + IdleEntries, ExitEntries, Exit);
    InPhaseConcat(RevealEntries, IdleEntries, Reveal);
    InPhaseConcat(RevealEntries, IdleEntries, Idle);
    InPhaseConcat(RevealEntries, IdleEntries, Exit);
    InPhaseUniform(RevealEntries, Reveal, Idle);
    InPhaseUniform(RevealEntries, Reveal, Exit);
    InPhaseUniform(IdleEntries, Idle, Reveal);
    InPhaseUniform(IdleEntries, Idle, Exit);
    InPhaseUniform(ExitEntries, Exit, Reveal);
    InPhaseUniform(ExitEntries, Exit, Idle);
  }

  /** The reveal entries start at 0, 0, 0.2, 0.4, 0.8, 1.0 and 1.2 seconds, in that order. */
  lemma RevealOffsets()
    ensures Offsets(InPhase(Timeline, Reveal)) == [0.0, 0.0, 0.2, 0.4, 0.8, 1.0, 1.2]
  {
    TimelinePhases();
    PhaseTableOffsets();
  }

  /** What the entries of the reveal and the exit animate, in timeline order. */
  lemma PhaseTargets()
    ensures Targets(InPhase(Timeline, Reveal)) ==
      [Background, Spotlight, Card, Image, NameGlyphs, UnderlineBar, Details]
    ensures Targets(InPhase(Timeline, Exit)) == [TextBlock, Card, Image, Spotlight]
  {
    TimelinePhases();
    PhaseTableTargets();
  }

  /** What the entries of the reveal and exit tables animate. */
  lemma PhaseTableTargets()
    ensures Targets(RevealEntries) == [Background, Spotlight, Card, Image, NameGlyphs, UnderlineBar, Details]
    ensures Targets(ExitEntries) == [TextBlock, Card, Image, Spotlight]
  {
  }

  /** The idle float starts at 1.7 seconds and the breathing at 2; both run twice, there and back. */
  lemma IdleOffsets()
    ensures Offsets(InPhase(Timeline, Idle)) == [1.7, 2.0]
    ensures forall e :: e in InPhase(Timeline, Idle) ==> e.repeat == 1 && e.yoyo
  {
    TimelinePhases();
    PhaseTableOffsets();
  }

  /** The text fades at the exit mark, the card leaves 0.1 seconds later, the spotlight goes out 0.3 seconds after the mark. */
  lemma ExitOffsets()
    ensures ExitStart == 6.5
    ensures Offsets(InPhase(Timeline, Exit)) == [ExitStart, ExitStart + 0.1, ExitStart + 0.1, ExitStart + 0.3]
  {
    TimelinePhases();
    PhaseTableOffsets();
  }

  lemma {:induction false} OffsetsConcat(a: seq<Entry>, b: seq<Entry>)
    ensures Offsets(a + b) == Offsets(a) + Offsets(b)
  {
    if a != [] {
      assert (a + b)[1..] == a[1..] + b;
      OffsetsConcat(a[1..], b);
    } else {
      assert a + b == b;
    }
  }

  lemma SortedAppend(x: seq<real>, y: seq<real>, mid: real)
    requires NonDecreasing(x) && NonDecreasing(y)
    requires forall i :: 0 <= i < |x| ==> x[i] <= mid
    requires forall i :: 0 <= i < |y| ==> mid <= y[i]
    ensures NonDecreasing(x + y)
  {
    forall i, j | 0 <= i < j < |x| + |y| ensures (x + y)[i] <= (x + y)[j] {
      if j < |x| {
        assert (x + y)[i] == x[i] && (x + y)[j] == x[j];
      } else if i >= |x| {
        assert (x + y)[i] == y[i - |x|] && (x + y)[j] == y[j - |x|];
      } else {
        assert (x + y)[i] == x[i] && (x + y)[j] == y[j - |x|];
      }
    }
  }

  /** The offsets of the three phase tables. */
  lemma PhaseTableOffsets()
    ensures Offsets(RevealEntries) == [0.0, 0.0, 0.2, 0.4, 0.8, 1.0, 1.2]
    ensures Offsets(IdleEntries) == [1.7, 2.0]
    ensures Offsets(ExitEntries) == [6.5, 6.6, 6.6, 6.8]
  {
  }

  /** A list whose neighbours are in order is in order. */
  lemma {:induction false} AdjacentSorted(r: seq<real>)
    requires forall k :: 0 <= k < |r| - 1 ==> r[k] <= r[k + 1]
    ensures NonDecreasing(r)
  {
    if |r| > 1 {
      AdjacentSorted(r[1..]);
      forall j | 0 < j < |r| ensures r[0] <= r[j] {
        assert r[0] <= r[1];
        assert r[1..][0] <= r[1..][j - 1];
      }
    }
  }

  /** Each phase table is in start order, and the reveal ends its starts before the idle phase begins. */
  lemma PhaseTablesSorted()
    ensures NonDecreasing(Offsets(RevealEntries)) && NonDecreasing(Offsets(IdleEntries))
    ensures NonDecreasing(Offsets(ExitEntries))
    ensures forall k :: 0 <= k < |RevealEntries| ==> Offsets(RevealEntries)[k] <= 1.5
    ensures forall k :: 0 <= k < |IdleEntries| ==> 1.5 <= Offsets(IdleEntries)[k] <= 2.0
  {
    PhaseTableOffsets();
    AdjacentSorted(Offsets(RevealEntries));
    AdjacentSorted(Offsets(IdleEntries));
    AdjacentSorted(Offsets(ExitEntries));
  }

  /** The timeline is built in start order. */
  lemma TimelineInStartOrder()
    ensures NonDecreasing(Offsets(Timeline))
  {
    PhaseTablesSorted();
    var r, i, x := Offsets(RevealEntries), Offsets(IdleEntries), Offsets(ExitEntries);
    OffsetsConcat(RevealEntries, IdleEntries);
    SortedAppend(r, i, 1.5);
    OffsetsConcat(RevealEntries + IdleEntries, ExitEntries);
    assert forall k :: 0 <= k < |r + i| ==> (r + i)[k] <= 2.0;
    assert forall k :: 0 <= k < |x| ==> 4.0 <= x[k] by {
      PhaseTableOffsets();
    }
    SortedAppend(r + i, x, 4.0);
  }

  /** Every entry of an earlier phase starts before every entry of a later one: phases are windows on one clock. */
  lemma PhasesSeparated()
    ensures forall i, j :: 0 <= i < |Timeline| && 0 <= j < |Timeline| ==>
      (Rank(Timeline[i].phase) < Rank(Timeline[j].phase) ==> Timeline[i].offset < Timeline[j].offset)
  {
    forall i | 0 <= i < |Timeline|
      ensures Rank(Timeline[i].phase) == 0 ==> Timeline[i].offset <= 1.2
      ensures Rank(Timeline[i].phase) == 1 ==> 1.7 <= Timeline[i].offset <= 2.0
      ensures Rank(Timeline[i].phase) == 2 ==> 6.5 <= Timeline[i].offset
    {
      if i < 7 {
        assert Timeline[i] == RevealEntries[i];
      } else if i < 9 {
        assert Timeline[i] == IdleEntries[i - 7];
      } else {
        assert Timeline[i] == ExitEntries[i - 9];
      }
    }
  }

  /** Only the name reveal leaves its duration to the library; every other entry ends by 9.7 seconds, the end of the card's float. */
  lemma TimedEntriesEnd(dflt: real)
    ensures forall e :: e in Timeline && e != NameReveal ==> e.duration.Seconds? && EndOf(e, 1, dflt) <= 9.7
    ensures EndOf(CardFloat, 1, dflt) == 9.7
    ensures forall e :: e in ExitEntries ==> EndOf(e, 1, dflt) <= 7.4
    ensures EndOf(CardExit, 1, dflt) == 7.4
  {
  }

  /**
   * With the name reveal over `n` glyphs, every entry of the timeline ends by
   * the later of 9.7 seconds and the name reveal's own end, and both are reached.
   */
  lemma TimelineEnd(n: nat, dflt: real)
    requires n > 0
    ensures EndOf(NameReveal, n, dflt) == 0.8 + 0.05 * (n - 1) as real + dflt
    ensures forall e :: e in Timeline ==>
      EndOf(e, if e == NameReveal then n else 1, dflt) <= Later(9.7, EndOf(NameReveal, n, dflt))
    ensures CardFloat in Timeline && EndOf(CardFloat, 1, dflt) == 9.7 && NameReveal in Timeline
  {
    TimedEntriesEnd(dflt);
    assert CardFloat == Timeline[7] && NameReveal == Timeline[4];
  }

  function Later(a: real, b: real): (r: real)
    ensures r >= a && r >= b && (r == a || r == b)
  {
    if a >= b then a else b
  }

  /** Start times of the `count` elements of a staggered entry, one per element, in order. */
  function StaggerStarts(e: Entry, count: nat): (r: seq<real>)
    ensures |r| == count
    ensures forall i :: 0 <= i < count ==> r[i] == e.offset + e.stagger * i as real
  {
    if count == 0 then [] else StaggerStarts(e, count - 1) + [e.offset + e.stagger * (count - 1) as real]
  }

  /** With a positive stagger, each element starts strictly after the one before it. */
  lemma StaggerIncreasing(e: Entry, count: nat, i: nat, j: nat)
    requires e.stagger > 0.0 && i < j < count
    ensures StaggerStarts(e, count)[i] < StaggerStarts(e, count)[j]
  {
    var s := StaggerStarts(e, count);
    assert s[j] - s[i] == e.stagger * (j - i) as real;
  }

  /** Glyph `i` of a product name starts to appear at 0.8 + 0.05 * i seconds, after the card has started its entrance. */
  lemma GlyphRevealStarts(name: string, i: nat)
    requires i < |name|
    ensures var starts := StaggerStarts(NameReveal, |Glyphs.SplitTextToSpans(name)|);
      |starts| == |name| && starts[i] == 0.8 + 0.05 * i as real &&
      CardEntrance.offset < starts[i]
  {
  }
}
