/**
 What every part of the keying pipeline talks about: marks and the silences between them,
 the key line frame by frame, and the times at which a listener is polled.
 */
module Morse {

  datatype Element = Dit | Dah

  /** One keyed mark, how long it lasted, and how long the key stayed up after it. */
  datatype Segment = Segment(key: Element, mark: nat, gap: nat)

  /** What happens to the key line at one frame. */
  datatype Edge = Quiet | KeyDown | KeyUp

  function Still(n: nat): (s: seq<Edge>)
    ensures |s| == n && forall k :: 0 <= k < n ==> s[k] == Quiet
  {
    seq(n, _ => Quiet)
  }

  /** Key going to a new level and staying there for n frames. */
  function Hold(e: Edge, n: nat): (s: seq<Edge>)
    ensures |s| == n
  {
    if n == 0 then [] else [e] + Still(n - 1)
  }

  function SegmentWave(s: Segment): seq<Edge> {
    Hold(KeyDown, s.mark) + Hold(KeyUp, s.gap)
  }

  /** The edges of a whole transmission, frame by frame. */
  function Wave(segs: seq<Segment>): seq<Edge> {
    if segs == [] then [] else Wave(segs[..|segs| - 1]) + SegmentWave(segs[|segs| - 1])
  }

  lemma WaveAppend(segs: seq<Segment>, s: Segment)
    ensures Wave(segs + [s]) == Wave(segs) + SegmentWave(s)
  {
    assert (segs + [s])[..|segs|] == segs;
  }

  lemma HoldGrows(e: Edge, n: nat)
    requires n > 0
    ensures Hold(e, n + 1) == Hold(e, n) + [Quiet]
  {
    assert Still(n) == Still(n - 1) + [Quiet];
    assert [e] + Still(n) == [e] + Still(n - 1) + [Quiet];
  }

  /** Some frame in [lo, hi) is polled. */
  ghost predicate PolledIn(polled: nat -> bool, lo: nat, hi: nat) {
    exists u: nat :: lo <= u < hi && polled(u)
  }

  /** Every `period` consecutive frames hold a poll. */
  ghost predicate PolledEvery(polled: nat -> bool, period: nat) {
    forall lo: nat, hi: nat :: lo + period <= hi ==> PolledIn(polled, lo, hi)
  }

  lemma PolledInExtend(polled: nat -> bool, lo: nat, hi: nat)
    requires lo <= hi
    ensures PolledIn(polled, lo, hi + 1) <==> PolledIn(polled, lo, hi) || polled(hi)
  {
    if PolledIn(polled, lo, hi + 1) {
      var u: nat :| lo <= u < hi + 1 && polled(u);
      assert u < hi || u == hi;
    }
  }
}
