/**
 The output side shared by the iambic keyers (dspmath/iambic.h, sdrtcl/keyer_iambic_ad5dz.cc): one output
 code per clock call, measured into marks and gaps, and turned into key edges.
 */
module Keying {
  import opened Morse

  const OFF := 0
  const DIT := 3
  const DAH := 5

  function Code(e: Element): int {
    if e.Dit? then DIT else DAH
  }

  predicate IsOutput(out: int) {
    out == OFF || out == DIT || out == DAH
  }

  predicate Outputs(outs: seq<int>) {
    forall k :: 0 <= k < |outs| ==> IsOutput(outs[k])
  }

  function Constant(out: int, n: nat): (s: seq<int>)
    ensures |s| == n && forall k :: 0 <= k < n ==> s[k] == out
  {
    seq(n, _ => out)
  }

  /** Marks and gaps as a stop-watch would read them.  The last segment may still be going on. */
  datatype Tape = Tape(lead: nat, segs: seq<Segment>)

  function Last(t: Tape): Segment
    requires t.segs != []
  {
    t.segs[|t.segs| - 1]
  }

  function Done(t: Tape): seq<Segment> {
    if t.segs == [] then [] else t.segs[..|t.segs| - 1]
  }

  /** One more output. */
  function Extend(t: Tape, out: int): Tape
    requires IsOutput(out)
  {
    if out == OFF then
      if t.segs == [] then Tape(t.lead + 1, [])
      else Tape(t.lead, Done(t) + [Last(t).(gap := Last(t).gap + 1)])
    else
      var e := if out == DIT then Dit else Dah;
      if t.segs != [] && Last(t).gap == 0 && Last(t).key == e
      then Tape(t.lead, Done(t) + [Last(t).(mark := Last(t).mark + 1)])
      else Tape(t.lead, t.segs + [Segment(e, 1, 0)])
  }

  function Measure(outs: seq<int>): Tape
    requires Outputs(outs)
  {
    if outs == [] then Tape(0, [])
    else Extend(Measure(outs[..|outs| - 1]), outs[|outs| - 1])
  }

  /** The event sent for a change of output. */
  function EdgeBetween(before: int, after: int): Edge {
    if before == after then Quiet else if after != OFF then KeyDown else KeyUp
  }

  function FinalOutput(outs: seq<int>): int {
    if outs == [] then OFF else outs[|outs| - 1]
  }

  function Edges(outs: seq<int>): (s: seq<Edge>)
    ensures |s| == |outs|
  {
    if outs == [] then []
    else Edges(outs[..|outs| - 1]) + [EdgeBetween(FinalOutput(outs[..|outs| - 1]), FinalOutput(outs))]
  }

  /** No mark is followed by another without a gap. */
  ghost predicate Separated(t: Tape) {
    forall k :: 0 <= k < |t.segs| - 1 ==> 0 < t.segs[k].gap
  }

  function TapeEdges(t: Tape): seq<Edge> {
    Still(t.lead) + Wave(t.segs)
  }

  lemma TapeWith(lead: nat, done: seq<Segment>, s: Segment)
    ensures TapeEdges(Tape(lead, done + [s])) == TapeEdges(Tape(lead, done)) + SegmentWave(s)
  {
    WaveAppend(done, s);
  }

  lemma SegmentGrows(s: Segment)
    requires 0 < s.mark
    ensures SegmentWave(s.(gap := s.gap + 1)) == SegmentWave(s) + [if s.gap == 0 then KeyUp else Quiet]
    ensures s.gap == 0 ==> SegmentWave(s.(mark := s.mark + 1)) == SegmentWave(s) + [Quiet]
  {
    assert Hold(KeyUp, 1) == [KeyUp];
    if s.gap > 0 {
      HoldGrows(KeyUp, s.gap);
    } else {
      HoldGrows(KeyDown, s.mark);
    }
  }

  /** What the final output says about the tape. */
  ghost predicate EndsWith(t: Tape, out: int) {
    && (t.segs == [] ==> out == OFF)
    && (t.segs != [] ==> 0 < Last(t).mark && out == if 0 < Last(t).gap then OFF else Code(Last(t).key))
  }

  lemma LeadStep(t: Tape, out: int)
    requires IsOutput(out) && t.segs == []
    ensures EndsWith(Extend(t, out), out)
    ensures TapeEdges(Extend(t, out)) == TapeEdges(t) + [EdgeBetween(OFF, out)]
  {
    if out == OFF {
      assert Still(t.lead + 1) == Still(t.lead) + [Quiet];
    } else {
      TapeWith(t.lead, [], Last(Extend(t, out)));
      assert Hold(KeyDown, 1) == [KeyDown];
    }
  }

  lemma GapStep(t: Tape)
    requires t.segs != [] && 0 < Last(t).mark
    ensures EndsWith(Extend(t, OFF), OFF)
    ensures TapeEdges(Extend(t, OFF)) == TapeEdges(t) + [if Last(t).gap == 0 then KeyUp else Quiet]
  {
    var s := Last(t);
    assert t == Tape(t.lead, Done(t) + [s]);
    TapeWith(t.lead, Done(t), s);
    TapeWith(t.lead, Done(t), s.(gap := s.gap + 1));
    SegmentGrows(s);
  }

  lemma MarkGoesOn(t: Tape)
    requires t.segs != [] && 0 < Last(t).mark && Last(t).gap == 0
    ensures var out := Code(Last(t).key);
      EndsWith(Extend(t, out), out) && TapeEdges(Extend(t, out)) == TapeEdges(t) + [Quiet]
  {
    var s := Last(t);
    assert t == Tape(t.lead, Done(t) + [s]);
    TapeWith(t.lead, Done(t), s);
    TapeWith(t.lead, Done(t), s.(mark := s.mark + 1));
    SegmentGrows(s);
  }

  lemma MarkStep(t: Tape, e: Element)
    requires t.segs != [] && 0 < Last(t).mark && (Last(t).gap == 0 ==> Last(t).key == e)
    ensures EndsWith(Extend(t, Code(e)), Code(e))
    ensures TapeEdges(Extend(t, Code(e))) == TapeEdges(t) + [if Last(t).gap == 0 then Quiet else KeyDown]
  {
    if Last(t).gap == 0 {
      MarkGoesOn(t);
    } else {
      TapeWith(t.lead, t.segs, Segment(e, 1, 0));
      assert Hold(KeyDown, 1) == [KeyDown];
    }
  }

  lemma EdgesStep(t: Tape, before: int, out: int)
    requires IsOutput(out) && EndsWith(t, before)
    requires Separated(Extend(t, out))
    ensures EndsWith(Extend(t, out), out)
    ensures TapeEdges(Extend(t, out)) == TapeEdges(t) + [EdgeBetween(before, out)]
  {
    if t.segs == [] {
      LeadStep(t, out);
    } else if out == OFF {
      GapStep(t);
    } else {
      var e := if out == DIT then Dit else Dah;
      assert |Extend(t, out).segs| > |t.segs| ==> 0 < Extend(t, out).segs[|t.segs| - 1].gap;
      MarkStep(t, e);
    }
  }

  /** The events a keyer sends are the edges of the marks and gaps it was measured to make. */
  lemma {:induction false} EdgesAreTapeEdges(outs: seq<int>)
    requires Outputs(outs) && Separated(Measure(outs))
    ensures Edges(outs) == TapeEdges(Measure(outs)) && EndsWith(Measure(outs), FinalOutput(outs))
  {
    if outs == [] {
      assert TapeEdges(Tape(0, [])) == [];
    } else {
      var rest := outs[..|outs| - 1];
      SeparatedBefore(Measure(rest), FinalOutput(outs));
      EdgesAreTapeEdges(rest);
      EdgesStep(Measure(rest), FinalOutput(rest), FinalOutput(outs));
    }
  }

  lemma SeparatedBefore(t: Tape, out: int)
    requires IsOutput(out) && Separated(Extend(t, out))
    ensures Separated(t)
  {
    var t' := Extend(t, out);
    assert forall k :: 0 <= k < |t.segs| - 1 ==> t'.segs[k] == t.segs[k];
  }
}
