/**
 The detimer reads back what was keyed: any transmission whose marks are within j of d or 3d and whose
 gaps fall in one of three bands decodes to its elements, letter spaces and word spaces.
 */
module DetimeDecode {
  import opened Morse
  import opened Detime
  import opened DetimeTracking

  /** Dot length d, timing error j, and at least one poll in every `period` frames. */
  datatype Setup = Setup(d: nat, j: nat, period: nat)

  predicate Workable(c: Setup) {
    0 < c.d && 3 * c.j <= c.d && c.period + 2 * c.j <= 4 * c.d
  }

  // the three bands a gap may fall in
  predicate ElementGap(g: nat, c: Setup) { 0 < g <= 2 * c.d - c.j + 1 }
  predicate LetterGap(g: nat, c: Setup) { 2 * c.d + c.j + c.period < g <= 6 * c.d - 3 * c.j + 1 }
  predicate WordGap(g: nat, c: Setup) { 6 * c.d + 3 * c.j + c.period < g }

  predicate Legible(s: Segment, c: Setup) {
    && Near(s.key, s.mark, c.d, c.j)
    && (ElementGap(s.gap, c) || LetterGap(s.gap, c) || WordGap(s.gap, c))
  }

  predicate AllLegible(segs: seq<Segment>, c: Setup) {
    forall k :: 0 <= k < |segs| ==> Legible(segs[k], c)
  }

  function SegmentText(s: Segment, c: Setup): string {
    [DotChar(s.key)] +
    if ElementGap(s.gap, c) then "" else if LetterGap(s.gap, c) then " " else "  "
  }

  /** What the transmission says. */
  function Text(segs: seq<Segment>, c: Setup): string {
    if segs == [] then "" else Text(segs[..|segs| - 1], c) + SegmentText(segs[|segs| - 1], c)
  }

  ghost predicate Listening(s: Session, now: nat, c: Setup) {
    Ready(s, now) && InTune(s.timer, c.d, c.j)
  }

  /** After the edges from `start` on, the detimer has written `text` and is in tune for what follows. */
  ghost predicate HeardAs(s: Session, start: nat, edges: seq<Edge>, polled: nat -> bool, text: string, c: Setup)
    requires Ready(s, start)
  {
    var r := Hear(s, start, edges, polled);
    Listening(r, start + |edges|, c) && r.heard == text
  }

  lemma HeardAfter(s: Session, start: nat, a: seq<Edge>, b: seq<Edge>, polled: nat -> bool, text: string, c: Setup)
    requires Ready(s, start)
    requires HeardAs(Hear(s, start, a, polled), start + |a|, b, polled, text, c)
    ensures HeardAs(s, start, a + b, polled, text, c)
  {
    HearConcat(s, start, a, b, polled);
  }

  // ---- inside a mark ----

  lemma {:induction false} MarkIsSilent(s: Session, start: nat, n: nat, polled: nat -> bool)
    requires Ready(s, start) && s.timer.state == ON
    ensures Hear(s, start, Still(n), polled) == s
  {
    if n > 0 {
      assert Still(n)[..n - 1] == Still(n - 1);
      MarkIsSilent(s, start, n - 1, polled);
    }
  }

  /** A key-down and the frames after it. */
  lemma {:induction false} HearDown(s: Session, start: nat, n: nat, polled: nat -> bool)
    requires Ready(s, start) && 0 < n
    ensures Hear(s, start, Hold(KeyDown, n), polled) == Session(SpaceHeard(s.timer, start), s.heard)
  {
    HearConcat(s, start, [KeyDown], Still(n - 1), polled);
    HearOne(s, start, KeyDown, polled);
    assert s.heard + "" == s.heard;
    MarkIsSilent(HearEdge(s, start, KeyDown), start + 1, n - 1, polled);
  }

  lemma HearOne(s: Session, start: nat, e: Edge, polled: nat -> bool)
    requires Ready(s, start)
    ensures Hear(s, start, [e], polled) == HearFrame(s, start, e, polled(start))
  {
    assert [e][..0] == [];
  }

  // ---- inside a gap ----

  function Spaces(state: int): string {
    if state == OFF then "" else if state == IDLE then " " else "  "
  }

  /** Where the detimer can be n frames after the key went up at frame `up`. */
  ghost predicate GapState(s: Session, s0: Session, n: nat, polled: nat -> bool) {
    var up, T := s0.timer.frame, TwoDot(s0.timer);
    && s.timer == s0.timer.(state := s.timer.state)
    && s.timer.state in {OFF, IDLE, IDLE2}
    && s.heard == s0.heard + Spaces(s.timer.state)
    && (s.timer.state == OFF ==> !PolledIn(polled, up + T + 1, up + n + 1))
    && (s.timer.state != OFF ==> n > T)
    && (s.timer.state == IDLE ==> !PolledIn(polled, up + 3 * T + 1, up + n + 1))
    && (s.timer.state == IDLE2 ==> n > 3 * T)
  }

  lemma {:induction false} Silence(s0: Session, n: nat, polled: nat -> bool, period: nat)
    requires Sane(s0.timer) && s0.timer.state == OFF
    requires PolledEvery(polled, period) && period <= 2 * TwoDot(s0.timer)
    ensures GapState(Hear(s0, s0.timer.frame + 1, Still(n), polled), s0, n, polled)
  {
    var up, T := s0.timer.frame, TwoDot(s0.timer);
    if n == 0 {
      assert s0.heard + "" == s0.heard;
    } else {
      assert Still(n)[..n - 1] == Still(n - 1);
      Silence(s0, n - 1, polled, period);
      var s := Hear(s0, up + 1, Still(n - 1), polled);
      GapStep(s, s0, n - 1, polled, period);
    }
  }

  lemma GapStep(s: Session, s0: Session, n: nat, polled: nat -> bool, period: nat)
    requires Sane(s0.timer) && s0.timer.state == OFF
    requires PolledEvery(polled, period) && period <= 2 * TwoDot(s0.timer)
    requires GapState(s, s0, n, polled)
    ensures var now := s0.timer.frame + n + 1;
            GapState(HearFrame(s, now, Quiet, polled(now)), s0, n + 1, polled)
  {
    var up, T := s0.timer.frame, TwoDot(s0.timer);
    var now := up + n + 1;
    if up + T + 1 <= now {
      PolledInExtend(polled, up + T + 1, now);
    }
    if up + 3 * T + 1 <= now {
      PolledInExtend(polled, up + 3 * T + 1, now);
    }
    if s.timer.state == OFF && n >= T + period {
      assert false;
    }
    assert (s0.heard + "") + " " == s0.heard + " ";
    assert (s0.heard + " ") + " " == s0.heard + "  ";
    assert s.heard + "" == s.heard;
  }

  // ---- a whole segment ----

  /** After the key-up that ends a mark sent as e. */
  lemma HearUp(s: Session, now: nat, e: Element, polled: nat -> bool, c: Setup)
    requires Workable(c) && Listening(s, now, c) && Near(e, now - s.timer.frame, c.d, c.j)
    ensures var t := MarkHeard(s.timer, now).0;
      && InTune(t, c.d, c.j) && t.state == OFF && t.frame == now
      && Hear(s, now, [KeyUp], polled) == Session(t, s.heard + [DotChar(e)])
  {
    MarkKeepsTune(s.timer, now, e, c.d, c.j);
    HearOne(s, now, KeyUp, polled);
    var s1 := HearEdge(s, now, KeyUp);
    assert s1.heard + "" == s1.heard;
  }

  /** Any silence of g frames, the first of them holding the key-up. */
  lemma HearGap(s: Session, g: nat, polled: nat -> bool, c: Setup)
    requires Workable(c) && PolledEvery(polled, c.period)
    requires InTune(s.timer, c.d, c.j) && s.timer.state == OFF && 0 < g
    ensures var r := Hear(s, s.timer.frame + 1, Still(g - 1), polled);
      && Listening(r, s.timer.frame + g, c)
      && r.timer.state in {OFF, IDLE, IDLE2}
      && r.heard == s.heard + Spaces(r.timer.state)
      && (ElementGap(g, c) ==> r.timer.state == OFF)
      && (LetterGap(g, c) ==> r.timer.state == IDLE)
      && (WordGap(g, c) ==> r.timer.state == IDLE2)
  {
    var up, T := s.timer.frame, TwoDot(s.timer);
    InTuneTwoDot(s.timer, c.d, c.j);
    Silence(s, g - 1, polled, c.period);
    if LetterGap(g, c) || WordGap(g, c) {
      assert PolledIn(polled, up + T + 1, up + g);
    }
    if WordGap(g, c) {
      assert PolledIn(polled, up + 3 * T + 1, up + g);
    }
  }

  /** What a mark and the silence after it add to a session. */
  ghost predicate Heard(r: Session, text: string, now: nat, e: Element, g: nat, c: Setup) {
    && Listening(r, now, c)
    && r.timer.state in {OFF, IDLE, IDLE2}
    && r.heard == text + [DotChar(e)] + Spaces(r.timer.state)
    && (ElementGap(g, c) ==> r.timer.state == OFF)
    && (LetterGap(g, c) ==> r.timer.state == IDLE)
    && (WordGap(g, c) ==> r.timer.state == IDLE2)
  }

  lemma HearRelease(s: Session, up: nat, e: Element, g: nat, polled: nat -> bool, c: Setup)
    requires Workable(c) && PolledEvery(polled, c.period)
    requires Listening(s, up, c) && Near(e, up - s.timer.frame, c.d, c.j) && 0 < g
    ensures Heard(Hear(s, up, Hold(KeyUp, g), polled), s.heard, up + g, e, g, c)
  {
    HearUp(s, up, e, polled, c);
    HearGap(Hear(s, up, [KeyUp], polled), g, polled, c);
    HearConcat(s, up, [KeyUp], Still(g - 1), polled);
  }

  /** A mark and any length of silence after it: its character, and up to two spaces. */
  lemma HearSegment(s: Session, start: nat, seg: Segment, polled: nat -> bool, c: Setup)
    requires Workable(c) && PolledEvery(polled, c.period)
    requires Listening(s, start, c) && Near(seg.key, seg.mark, c.d, c.j) && 0 < seg.gap
    ensures Heard(Hear(s, start, SegmentWave(seg), polled), s.heard, start + seg.mark + seg.gap, seg.key, seg.gap, c)
  {
    HearDown(s, start, seg.mark, polled);
    var s1 := Session(SpaceHeard(s.timer, start), s.heard);
    HearRelease(s1, start + seg.mark, seg.key, seg.gap, polled, c);
    HeardAfterMark(s, start, Hold(KeyDown, seg.mark), Hold(KeyUp, seg.gap), polled, s1, start + seg.mark, seg, c);
  }

  lemma HeardAfterMark(s: Session, start: nat, a: seq<Edge>, b: seq<Edge>, polled: nat -> bool, s1: Session, up: nat,
                       seg: Segment, c: Setup)
    requires Ready(s, start) && s1 == Hear(s, start, a, polled) && s1.heard == s.heard && up == start + |a|
    requires Heard(Hear(s1, up, b, polled), s1.heard, up + seg.gap, seg.key, seg.gap, c)
    ensures Heard(Hear(s, start, a + b, polled), s.heard, up + seg.gap, seg.key, seg.gap, c)
  {
    HearConcat(s, start, a, b, polled);
  }

  lemma SegmentHeard(s: Session, start: nat, seg: Segment, polled: nat -> bool, c: Setup, text: string)
    requires Workable(c) && PolledEvery(polled, c.period)
    requires Listening(s, start, c) && Legible(seg, c) && text == s.heard + SegmentText(seg, c)
    ensures HeardAs(s, start, SegmentWave(seg), polled, text, c)
  {
    HearSegment(s, start, seg, polled, c);
    assert s.heard + [DotChar(seg.key)] + "" == s.heard + ([DotChar(seg.key)] + "");
    assert s.heard + [DotChar(seg.key)] + " " == s.heard + ([DotChar(seg.key)] + " ");
    assert s.heard + [DotChar(seg.key)] + "  " == s.heard + ([DotChar(seg.key)] + "  ");
  }

  /** A legible transmission heard from any state in tune adds exactly its text. */
  lemma {:induction false} HearWave(s: Session, start: nat, segs: seq<Segment>, polled: nat -> bool, c: Setup)
    requires Workable(c) && PolledEvery(polled, c.period)
    requires Listening(s, start, c) && AllLegible(segs, c)
    ensures HeardAs(s, start, Wave(segs), polled, s.heard + Text(segs, c), c)
  {
    if segs == [] {
      assert s.heard + "" == s.heard;
    } else {
      var n := |segs| - 1;
      var before, last := Wave(segs[..n]), SegmentWave(segs[n]);
      HearWave(s, start, segs[..n], polled, c);
      TextJoins(s.heard, segs, c);
      SegmentHeard(Hear(s, start, before, polled), start + |before|, segs[n], polled, c, s.heard + Text(segs, c));
      HeardAfter(s, start, before, last, polled, s.heard + Text(segs, c), c);
    }
  }

  lemma TextJoins(h: string, segs: seq<Segment>, c: Setup)
    requires segs != []
    ensures h + Text(segs, c) ==
      h + Text(segs[..|segs| - 1], c) + SegmentText(segs[|segs| - 1], c)
  {
  }

  // ---- from configuration on ----

  /** One space may be written before the first mark, if the key stays up long enough. */
  function Lead(lead: nat, spd: nat, polled: nat -> bool): string {
    if exists u: nat :: u < lead && polled(u) && 6 * spd < u then " " else ""
  }

  lemma {:induction false} HearLead(spd: nat, lead: nat, polled: nat -> bool)
    ensures var r := Hear(Session(Configured(spd), ""), 0, Still(lead), polled);
      && r.heard == Lead(lead, spd, polled)
      && r.timer == Configured(spd).(state := if r.heard == "" then IDLE else IDLE2)
  {
    var s0 := Session(Configured(spd), "");
    InTuneTwoDot(Configured(spd), spd, 0);
    if lead > 0 {
      assert Still(lead)[..lead - 1] == Still(lead - 1);
      HearLead(spd, lead - 1, polled);
      LeadGrows(spd, lead - 1, polled);
    }
  }

  lemma LeadGrows(spd: nat, lead: nat, polled: nat -> bool)
    ensures Lead(lead + 1, spd, polled) ==
      if Lead(lead, spd, polled) == " " || (polled(lead) && 6 * spd < lead) then " " else ""
  {
    if u: nat :| u < lead + 1 && polled(u) && 6 * spd < u {
      assert u < lead || u == lead;
    }
  }

  /**
   The detimer inverts keying: from configuration with a dot length within tolerance, after any lead-in,
   the text it writes is the text of the transmission, behind the one space a long lead-in may add.
   */
  lemma Decodes(spd: nat, lead: nat, segs: seq<Segment>, polled: nat -> bool, c: Setup)
    requires Workable(c) && PolledEvery(polled, c.period)
    requires 2 * c.d - c.j <= 2 * spd <= 2 * c.d + c.j
    requires AllLegible(segs, c)
    ensures HeardAs(Session(Configured(spd), ""), 0, Still(lead) + Wave(segs), polled,
                    Lead(lead, spd, polled) + Text(segs, c), c)
  {
    var s0 := Session(Configured(spd), "");
    HearLead(spd, lead, polled);
    HearWave(Hear(s0, 0, Still(lead), polled), lead, segs, polled, c);
    HeardAfter(s0, 0, Still(lead), Wave(segs), polled, Lead(lead, spd, polled) + Text(segs, c), c);
  }

  /** sdrtcl/keyer_detime.c queries on every eighth frame. */
  predicate EveryEighth(frame: nat) {
    frame % 8 == 0
  }

  lemma EveryEighthIsEnough()
    ensures PolledEvery(EveryEighth, 8)
  {
    forall lo: nat, hi: nat | lo + 8 <= hi ensures PolledIn(EveryEighth, lo, hi) {
      var u := (lo + 7) / 8 * 8;
      assert lo <= u < hi && EveryEighth(u);
    }
  }
}
