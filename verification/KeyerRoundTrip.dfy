/** The paddle keyer and the detimer back to back: what was keyed is what is read. */
module KeyerRoundTrip {
  import opened Morse
  import opened Keying
  import opened Paddles
  import opened Asking
  import opened IambicAd5dz
  import opened Ad5dzPaddles
  import opened Detime
  import opened DetimeTracking
  import opened DetimeDecode

  /** The keyer's times suit a detimer set up for c: marks near d and 3d, each space in its own band. */
  predicate Suits(k: Config, c: Setup) {
    && Spaced(k) && Workable(c)
    && Near(Dit, k.dit, c.d, c.j) && Near(Dah, k.dah, c.d, c.j)
    && ElementGap(k.ies, c) && LetterGap(k.ils, c) && WordGap(k.iws, c)
  }

  /**
   The text written for a tape: its finished segments in full and, of the last one, still going on, the
   mark once it has ended and up to two spaces; all of it as soon as its gap has a legible length.
   */
  ghost predicate Reads(text: string, lead: string, t: Tape, c: Setup) {
    && (t.segs == [] || Last(t).gap == 0 ==> text == lead + Text(Done(t), c))
    && (t.segs != [] && 0 < Last(t).gap ==>
        exists state :: text == lead + Text(Done(t), c) + [DotChar(Last(t).key)] + Spaces(state))
    && (t.segs != [] && Legible(Last(t), c) ==> text == lead + Text(t.segs, c))
  }

  lemma DoneIsLegible(k: Config, t: Tape, c: Setup)
    requires Suits(k, c) && WellTimed(k, t)
    ensures AllLegible(Done(t), c)
    ensures t.segs != [] && (GoodGap(k, Last(t).gap) || ElementGap(Last(t).gap, c)) ==> AllLegible(t.segs, c)
  {
  }

  /**
   For every paddle input: the detimer, listening to the keyer's events, writes exactly the elements the
   keyer was heard to send, one space at each letter gap and two at each word gap; and the keyer sends no element
   without its paddle having been down since the element before.
   */
  lemma PaddleRoundTrip(k: Config, raws: seq<Keys>, spd: nat, polled: nat -> bool, c: Setup)
    requires Suits(k, c) && PolledEvery(polled, c.period)
    requires 2 * c.d - c.j <= 2 * spd <= 2 * c.d + c.j
    ensures AllAsked(k.swapped, raws, RawTrace(k, AT_REST, raws), 0)
    ensures var outs := RawTrace(k, AT_REST, raws);
      var t := Measure(outs);
      var text := Hear(Session(Configured(spd), ""), 0, Edges(outs), polled).heard;
      AllLegible(Done(t), c) && Reads(text, Lead(t.lead, spd, polled), t, c)
  {
    var outs := RawTrace(k, AT_REST, raws);
    EveryMarkIsAsked(k, raws);
    WellFormedOutput(k, Fixed(k, raws));
    EdgesAreTapeEdges(outs);
    var t := Measure(outs);
    DoneIsLegible(k, t, c);
    HearTape(spd, t, polled, c);
  }

  lemma WholeIsLegible(t: Tape, c: Setup)
    requires t.segs != [] && AllLegible(Done(t), c) && Legible(Last(t), c)
    ensures AllLegible(t.segs, c)
  {
    assert forall k :: 0 <= k < |Done(t)| ==> t.segs[k] == Done(t)[k];
  }

  lemma HearTape(spd: nat, t: Tape, polled: nat -> bool, c: Setup)
    requires Workable(c) && PolledEvery(polled, c.period)
    requires 2 * c.d - c.j <= 2 * spd <= 2 * c.d + c.j
    requires AllLegible(Done(t), c)
    requires t.segs != [] ==> 0 < Last(t).mark && (0 < Last(t).gap ==> Near(Last(t).key, Last(t).mark, c.d, c.j))
    ensures var text := Hear(Session(Configured(spd), ""), 0, TapeEdges(t), polled).heard;
      Reads(text, Lead(t.lead, spd, polled), t, c)
  {
    Decodes(spd, t.lead, Done(t), polled, c);
    if t.segs != [] {
      HearLast(Session(Configured(spd), ""), t, polled, Lead(t.lead, spd, polled) + Text(Done(t), c), c);
      if Legible(Last(t), c) {
        WholeIsLegible(t, c);
        Decodes(spd, t.lead, t.segs, polled, c);
      }
    }
  }

  lemma TapeSplits(t: Tape)
    requires t.segs != []
    ensures TapeEdges(t) == (Still(t.lead) + Wave(Done(t))) + SegmentWave(Last(t))
  {
    assert t == Tape(t.lead, Done(t) + [Last(t)]);
    TapeWith(t.lead, Done(t), Last(t));
  }

  lemma HearLast(s: Session, t: Tape, polled: nat -> bool, text: string, c: Setup)
    requires Workable(c) && PolledEvery(polled, c.period) && Ready(s, 0) && t.segs != []
    requires 0 < Last(t).mark && (0 < Last(t).gap ==> Near(Last(t).key, Last(t).mark, c.d, c.j))
    requires HeardAs(s, 0, Still(t.lead) + Wave(Done(t)), polled, text, c)
    ensures Adds(Hear(s, 0, TapeEdges(t), polled), text, Last(t))
  {
    var before := Still(t.lead) + Wave(Done(t));
    var mid := Hear(s, 0, before, polled);
    var r := Hear(mid, |before|, SegmentWave(Last(t)), polled);
    HearAnySegment(mid, |before|, Last(t), polled, c);
    TapeSplits(t);
    HearTwo(s, before, SegmentWave(Last(t)), polled, mid, r);
    assert Hear(s, 0, TapeEdges(t), polled) == r;
  }

  lemma HearTwo(s: Session, a: seq<Edge>, b: seq<Edge>, polled: nat -> bool, mid: Session, r: Session)
    requires Ready(s, 0) && mid == Hear(s, 0, a, polled) && r == Hear(mid, |a|, b, polled)
    ensures Hear(s, 0, a + b, polled) == r
  {
    HearConcat(s, 0, a, b, polled);
    assert 0 + |a| == |a|;
  }

  /** What a segment adds to the text, its gap not over yet perhaps. */
  ghost predicate Adds(r: Session, text: string, seg: Segment) {
    && (seg.gap == 0 ==> r.heard == text)
    && (0 < seg.gap ==> exists state :: r.heard == text + [DotChar(seg.key)] + Spaces(state))
  }

  lemma HearAnySegment(s: Session, start: nat, seg: Segment, polled: nat -> bool, c: Setup)
    requires Workable(c) && PolledEvery(polled, c.period) && Listening(s, start, c)
    requires 0 < seg.mark && (0 < seg.gap ==> Near(seg.key, seg.mark, c.d, c.j))
    ensures Adds(Hear(s, start, SegmentWave(seg), polled), s.heard, seg)
  {
    if seg.gap == 0 {
      assert SegmentWave(seg) == Hold(KeyDown, seg.mark);
      HearDown(s, start, seg.mark, polled);
    } else {
      HearSegment(s, start, seg, polled, c);
    }
  }

  /** The times of Recommendation ITU-R M.1677-1, 1:3 marks and 1:3:7 spaces, with a poll every d-1 frames. */
  lemma StandardTimesSuit(d: nat, k: Config)
    requires 2 <= d && k.autoIls && k.autoIws
    requires k.dit == d && k.dah == 3 * d && k.ies == d && k.ils == 3 * d && k.iws == 7 * d
    ensures Suits(k, Setup(d, 0, d - 1))
    ensures forall s: Segment :: GoodMark(k, s) && GoodGap(k, s.gap) ==>
      Legible(s, Setup(d, 0, d - 1)) && SegmentText(s, Setup(d, 0, d - 1)) ==
        [DotChar(s.key)] + if s.gap == d then "" else if s.gap == 3 * d then " " else "  "
  {
  }
}
