/** What any of the iambic keyers is held to: exact marks, long enough gaps, and the squeezed waveform. */
module Paddles {
  import opened Morse
  import opened Keying

  /** Paddle levels. */
  datatype Keys = Keys(dit: bool, dah: bool)

  const UP := Keys(false, false)
  const BOTH := Keys(true, true)

  /** Ticks per dit, per dah and per space between elements. */
  datatype Times = Times(dit: int, dah: int, ies: int)

  predicate Positive(t: Times) {
    0 < t.dit && 0 < t.dah && 0 < t.ies
  }

  function MarkTicks(t: Times, e: Element): int {
    if e.Dit? then t.dit else t.dah
  }

  function Other(e: Element): Element {
    if e.Dit? then Dah else Dit
  }

  function Fix(swapped: bool, raw: Keys): Keys {
    if swapped then Keys(raw.dah, raw.dit) else raw
  }

  /** Integer division as in C, towards zero. */
  function Quotient(a: int, b: nat): int
    requires 0 < b
  {
    if a >= 0 then a / b else -(-a / b)
  }

  /** Every mark that has ended lasted its ticks, and every gap that has ended lasted an element space or more. */
  ghost predicate WellKeyed(t: Times, tape: Tape) {
    && (forall k :: 0 <= k < |tape.segs| - 1 ==>
      tape.segs[k].mark == MarkTicks(t, tape.segs[k].key) && t.ies <= tape.segs[k].gap)
    && (tape.segs != [] ==> RightSoFar(t, Last(tape)))
  }

  predicate RightSoFar(t: Times, s: Segment) {
    if s.gap == 0 then 0 < s.mark <= MarkTicks(t, s.key) else s.mark == MarkTicks(t, s.key)
  }

  /** The mark on the tape still has `left` ticks to go, the current one not counted. */
  ghost predicate Sounding(t: Times, tape: Tape, e: Element, left: int) {
    tape.segs != [] && Last(tape).key == e && Last(tape).gap == 0 && Last(tape).mark == MarkTicks(t, e) - left + 1
  }

  /** The gap on the tape still has `left` ticks to go, the current one not counted. */
  ghost predicate Resting(t: Times, tape: Tape, left: int) {
    tape.segs != [] && 0 < Last(tape).gap && Last(tape).gap == t.ies - left + 1
  }

  /** The key is up, and has been long enough if it was ever down. */
  ghost predicate Rested(t: Times, tape: Tape) {
    tape.segs != [] ==> t.ies <= Last(tape).gap
  }

  // ---- both paddles held ----

  function Period(t: Times): int {
    t.dit + t.ies + t.dah + t.ies
  }

  /** Dit, space, dah, space without end: the output at each tick. */
  function Squeezed(t: Times, n: nat): int
    requires Positive(t)
  {
    var p := n % Period(t);
    if p < t.dit then DIT
    else if p < t.dit + t.ies then OFF
    else if p < t.dit + t.ies + t.dah then DAH
    else OFF
  }
}
