/** dspmath/ramp.h: a table walked through once, from half of a window. */
module Ramps {
  /** A window by its size and index; only the first half and the middle are ever asked for. */
  type Shape = (int, int) -> real

  /** dspmath/window.h folds the second half of every window onto the first. */
  function Window(w: Shape, size: int, k: int): real {
    w(size, if k > size / 2 then size - 1 - k else k)
  }

  /** The first half of a window with its middle, or the middle and the second half. */
  function Table(w: Shape, target: nat, rising: bool): (t: seq<real>)
    requires 0 < target
    ensures |t| == target
  {
    seq(target, i => Window(w, 2 * target - 1, i + if rising then 0 else target - 1))
  }

  /** With equal lengths the fall is the rise backwards, for every window. */
  lemma FallIsRiseReversed(w: Shape, target: nat, i: nat)
    requires 0 < target && i < target
    ensures Table(w, target, false)[i] == Table(w, target, true)[target - 1 - i]
  {
    assert (2 * target - 1) / 2 == target - 1;
    assert Table(w, target, false)[i] == Window(w, 2 * target - 1, i + target - 1);
    assert Table(w, target, true)[target - 1 - i] == Window(w, 2 * target - 1, target - 1 - i);
    assert 2 * target - 1 - 1 - (i + target - 1) == target - 1 - i;
  }

  /** The window goes up from its beginning to its middle. */
  predicate GoesUp(w: Shape, size: int) {
    forall i :: 0 <= i < size / 2 ==> w(size, i) < w(size, i + 1)
  }

  /**
   With such a window the rise goes up from its beginning to its middle, and the fall down from there to its
   beginning.
   */
  lemma RiseGoesUp(w: Shape, target: nat)
    requires 0 < target && GoesUp(w, 2 * target - 1)
    ensures var rise, fall := Table(w, target, true), Table(w, target, false);
      && rise[0] == fall[target - 1] == w(2 * target - 1, 0)
      && rise[target - 1] == fall[0] == w(2 * target - 1, target - 1)
      && (forall i :: 0 <= i < target - 1 ==> rise[i] < rise[i + 1])
      && (forall i :: 0 <= i < target - 1 ==> fall[i] > fall[i + 1])
  {
    var size, rise, fall := 2 * target - 1, Table(w, target, true), Table(w, target, false);
    assert size / 2 == target - 1;
    forall i | 0 <= i < target ensures rise[i] == w(size, i) {
      assert rise[i] == Window(w, size, i);
    }
    forall i | 0 <= i < target ensures fall[i] == w(size, target - 1 - i) {
      FallIsRiseReversed(w, target, i);
    }
  }

  /** At least one sample, and an odd number of them. */
  function Target(samples: nat): (t: nat)
    ensures t % 2 == 1 && samples <= t <= samples + 1
  {
    if samples < 1 then 1 else if samples % 2 == 0 then samples + 1 else samples
  }

  class Ramp {
    var ramp: array<real>
    var current: int

    ghost predicate Valid()
      reads this
    {
      0 < ramp.Length && 0 <= current
    }

    constructor (w: Shape, samples: nat, rising: bool)
      ensures Valid() && fresh(ramp) && current == 0 && ramp[..] == Table(w, Target(samples), rising)
    {
      var target := samples;
      if target < 1 { target := 1; }
      if target % 2 == 0 { target := target + 1; }
      var off := if rising then 0 else target - 1;
      var table := new real[target];
      for i := 0 to target
        invariant forall k :: 0 <= k < i ==> table[k] == Table(w, target, rising)[k]
      {
        table[i] := Window(w, 2 * target - 1, i + off);
      }
      ramp := table;
      current := 0;
      assert table[..] == Table(w, target, rising);
    }

    method Start()
      requires Valid()
      modifies `current
      ensures Valid() && current == 0
    {
      current := 0;
    }

    /** The next value; past the end, the last one again. */
    method Next() returns (v: real)
      requires Valid()
      modifies `current
      ensures Valid() && current == (if old(current) < ramp.Length then old(current) else ramp.Length - 1) + 1
      ensures v == ramp[current - 1]
    {
      if current >= ramp.Length { current := ramp.Length - 1; }
      v := ramp[current];
      current := current + 1;
    }

    method Done() returns (done: bool)
      ensures done == (current >= ramp.Length)
    {
      return current >= ramp.Length;
    }
  }
}

/** dspmath/keyed_tone.h: the envelope of a keyed tone, relative to its gain. */
module KeyedTone {
  import opened Ramps

  datatype State = Off | Rise | On | Fall | RiseThenFall | FallThenRise

  /** The state, and how far each ramp has been walked. */
  datatype Tone = Tone(state: State, rise: int, fall: int)

  predicate Rising(t: Tone) {
    t.state.Rise? || t.state.RiseThenFall?
  }

  predicate Falling(t: Tone) {
    t.state.Fall? || t.state.FallThenRise?
  }

  function KeyOn(t: Tone): Tone {
    match t.state
    case Off => t.(state := Rise, rise := 0)
    case Fall => t.(state := FallThenRise)
    case RiseThenFall => t.(state := Rise)
    case _ => t
  }

  function KeyOff(t: Tone): Tone {
    match t.state
    case Rise => t.(state := RiseThenFall)
    case On => t.(state := Fall, fall := 0)
    case FallThenRise => t.(state := Fall)
    case _ => t
  }

  /** After a sample, with ramps of nr and nf samples. */
  function Tick(t: Tone, nr: int, nf: int): Tone {
    if Rising(t) then
      var t1 := t.(rise := t.rise + 1);
      if t1.rise < nr then t1
      else if t.state.RiseThenFall? then t1.(state := Fall, fall := 0) else t1.(state := On)
    else if Falling(t) then
      var t1 := t.(fall := t.fall + 1);
      if t1.fall < nf then t1
      else if t.state.FallThenRise? then t1.(state := Rise, rise := 0) else t1.(state := Off)
    else t
  }

  /** The value of that sample. */
  function Level(t: Tone, rise: seq<real>, fall: seq<real>): real
    requires Walking(t, |rise|, |fall|)
  {
    if Rising(t) then rise[t.rise] else if Falling(t) then fall[t.fall] else if t.state.On? then 1.0 else 0.0
  }

  /** The ramp being walked has not ended. */
  predicate Walking(t: Tone, nr: int, nf: int) {
    0 <= t.rise && 0 <= t.fall && (Rising(t) ==> t.rise < nr) && (Falling(t) ==> t.fall < nf)
  }

  class Keyed {
    const gain: real
    var state: State
    const rise: Ramp
    const fall: Ramp

    ghost predicate Valid()
      reads this, rise, fall, rise.ramp, fall.ramp
    {
      rise != fall && rise.Valid() && fall.Valid() && Walking(Value(), rise.ramp.Length, fall.ramp.Length)
    }

    ghost function Value(): Tone
      reads this, rise, fall
    {
      Tone(state, rise.current, fall.current)
    }

    constructor (gain: real, w: Shape, riseSamples: nat, fallSamples: nat)
      ensures Valid() && this.gain == gain && Value() == Tone(Off, 0, 0)
      ensures rise.ramp[..] == Table(w, Target(riseSamples), true) &&
        fall.ramp[..] == Table(w, Target(fallSamples), false)
    {
      this.gain := gain;
      state := Off;
      rise := new Ramp(w, riseSamples, true);
      fall := new Ramp(w, fallSamples, false);
    }

    method SwitchOn()
      requires Valid()
      modifies this, rise`current
      ensures Valid() && Value() == KeyOn(old(Value()))
    {
      match state {
        case Off =>
          state := Rise;
          rise.Start();
        case Rise | On =>
        case Fall => state := FallThenRise;
        case RiseThenFall => state := Rise;
        case FallThenRise =>
      }
    }

    method SwitchOff()
      requires Valid()
      modifies this, fall`current
      ensures Valid() && Value() == KeyOff(old(Value()))
    {
      match state {
        case Off =>
        case Rise => state := RiseThenFall;
        case On =>
          state := Fall;
          fall.Start();
        case Fall | RiseThenFall =>
        case FallThenRise => state := Fall;
      }
    }

    method Process() returns (scale: real)
      requires Valid()
      modifies this, rise`current, fall`current
      ensures Valid() && Value() == Tick(old(Value()), rise.ramp.Length, fall.ramp.Length)
      ensures scale == gain * Level(old(Value()), rise.ramp[..], fall.ramp[..])
    {
      scale := gain;
      if state == Off {
        scale := 0.0;
      } else if state == Rise || state == RiseThenFall {
        var v := WalkRise();
        scale := scale * v;
      } else if state == Fall || state == FallThenRise {
        var v := WalkFall();
        scale := scale * v;
      }
    }

    method WalkRise() returns (v: real)
      requires Valid() && Rising(Value())
      modifies this, rise`current, fall`current
      ensures Valid() && Value() == Tick(old(Value()), rise.ramp.Length, fall.ramp.Length)
      ensures v == rise.ramp[old(rise.current)]
    {
      v := rise.Next();
      var done := rise.Done();
      if done {
        if state == RiseThenFall {
          state := Fall;
          fall.Start();
        } else {
          state := On;
        }
      }
    }

    method WalkFall() returns (v: real)
      requires Valid() && Falling(Value())
      modifies this, rise`current, fall`current
      ensures Valid() && Value() == Tick(old(Value()), rise.ramp.Length, fall.ramp.Length)
      ensures v == fall.ramp[old(fall.current)]
    {
      v := fall.Next();
      var done := fall.Done();
      if done {
        if state == FallThenRise {
          state := Rise;
          rise.Start();
        } else {
          state := Off;
        }
      }
    }
  }

  // ---- the envelope over any use of the key ----

  datatype Step = Key(down: bool) | Sample

  /** Whole pieces of the envelope. */
  datatype Piece = Silence(n: nat) | WholeRise | Sustain(n: nat) | WholeFall

  /** The tone, what has come out, and its pieces that are complete. */
  datatype Session = Session(t: Tone, out: seq<real>, pieces: seq<Piece>)

  const QUIET := Session(Tone(Off, 0, 0), [], [])

  function Flat(v: real, n: nat): seq<real> {
    seq(n, _ => v)
  }

  function PieceOut(p: Piece, rise: seq<real>, fall: seq<real>): seq<real> {
    match p
    case Silence(n) => Flat(0.0, n)
    case WholeRise => rise
    case Sustain(n) => Flat(1.0, n)
    case WholeFall => fall
  }

  function Joined(pieces: seq<Piece>, rise: seq<real>, fall: seq<real>): seq<real> {
    if pieces == [] then []
    else Joined(pieces[..|pieces| - 1], rise, fall) + PieceOut(pieces[|pieces| - 1], rise, fall)
  }

  /** One more sample of silence or of the full level. */
  function Lengthen(pieces: seq<Piece>, sounding: bool): seq<Piece> {
    var n := |pieces| - 1;
    if pieces != [] && sounding && pieces[n].Sustain? then pieces[..n] + [Sustain(pieces[n].n + 1)]
    else if pieces != [] && !sounding && pieces[n].Silence? then pieces[..n] + [Silence(pieces[n].n + 1)]
    else pieces + [if sounding then Sustain(1) else Silence(1)]
  }

  /** The pieces after a sample: the ramp that it completed, or one more sample of a level. */
  function More(pieces: seq<Piece>, t: Tone, t': Tone): seq<Piece> {
    if Rising(t) then if Rising(t') then pieces else pieces + [WholeRise]
    else if Falling(t) then if Falling(t') then pieces else pieces + [WholeFall]
    else Lengthen(pieces, t.state.On?)
  }

  function Take(s: Session, step: Step, rise: seq<real>, fall: seq<real>): Session
    requires Walking(s.t, |rise|, |fall|)
  {
    match step
    case Key(down) => s.(t := if down then KeyOn(s.t) else KeyOff(s.t))
    case Sample =>
      var t' := Tick(s.t, |rise|, |fall|);
      Session(t', s.out + [Level(s.t, rise, fall)], More(s.pieces, s.t, t'))
  }

  ghost function Run(steps: seq<Step>, rise: seq<real>, fall: seq<real>): (s: Session)
    requires rise != [] && fall != []
    ensures Walking(s.t, |rise|, |fall|)
  {
    if steps == [] then QUIET else Take(Run(steps[..|steps| - 1], rise, fall), steps[|steps| - 1], rise, fall)
  }

  /** Silence, rise, full level if any, fall, and round again, with or without silence. */
  predicate Follows(p: Piece, q: Piece) {
    match p
    case Silence(_) => q.WholeRise?
    case WholeRise => q.Sustain? || q.WholeFall?
    case Sustain(_) => q.WholeFall?
    case WholeFall => q.Silence? || q.WholeRise?
  }

  ghost predicate Orderly(pieces: seq<Piece>) {
    && (pieces != [] ==> pieces[0].Silence? || pieces[0].WholeRise?)
    && forall k :: 0 < k < |pieces| ==> FollowsAt(pieces, k)
  }

  ghost predicate FollowsAt(pieces: seq<Piece>, k: nat) {
    0 < k < |pieces| && Follows(pieces[k - 1], pieces[k])
  }

  predicate EndsLow(pieces: seq<Piece>) {
    pieces == [] || pieces[|pieces| - 1].Silence? || pieces[|pieces| - 1].WholeFall?
  }

  predicate EndsHigh(pieces: seq<Piece>) {
    pieces != [] && (pieces[|pieces| - 1].Sustain? || pieces[|pieces| - 1].WholeRise?)
  }

  /** The piece being put out: as much of the ramp as has been walked. */
  function Unfinished(t: Tone, rise: seq<real>, fall: seq<real>): seq<real>
    requires Walking(t, |rise|, |fall|)
  {
    if Rising(t) then rise[..t.rise] else if Falling(t) then fall[..t.fall] else []
  }

  ghost predicate Shaped(s: Session, rise: seq<real>, fall: seq<real>)
    requires Walking(s.t, |rise|, |fall|)
  {
    && Orderly(s.pieces)
    && (if s.t.state.Off? || Rising(s.t) then EndsLow(s.pieces) else EndsHigh(s.pieces))
    && s.out == Joined(s.pieces, rise, fall) + Unfinished(s.t, rise, fall)
  }

  lemma Appended(pieces: seq<Piece>, p: Piece, rise: seq<real>, fall: seq<real>)
    requires Orderly(pieces) && if pieces == [] then p.Silence? || p.WholeRise? else Follows(pieces[|pieces| - 1], p)
    ensures Orderly(pieces + [p])
    ensures Joined(pieces + [p], rise, fall) == Joined(pieces, rise, fall) + PieceOut(p, rise, fall)
  {
    var more := pieces + [p];
    assert more[..|pieces|] == pieces;
    forall k | 0 < k < |more| ensures FollowsAt(more, k) {
      assert k < |pieces| ==> FollowsAt(pieces, k);
    }
  }

  lemma {:induction false} Lengthened(pieces: seq<Piece>, sounding: bool, rise: seq<real>, fall: seq<real>)
    requires Orderly(pieces) && if sounding then EndsHigh(pieces) else EndsLow(pieces)
    ensures var more := Lengthen(pieces, sounding);
      && Orderly(more) && (if sounding then EndsHigh(more) else EndsLow(more))
      && Joined(more, rise, fall) == Joined(pieces, rise, fall) + [if sounding then 1.0 else 0.0]
  {
    var n, v := |pieces| - 1, if sounding then 1.0 else 0.0;
    assert Flat(v, 1) == [v];
    if pieces != [] && (if sounding then pieces[n].Sustain? else pieces[n].Silence?) {
      LastLengthened(pieces[..n], pieces, sounding, pieces[n].n, v, rise, fall);
    } else {
      Appended(pieces, if sounding then Sustain(1) else Silence(1), rise, fall);
    }
  }

  function LevelPiece(sounding: bool, m: nat): Piece {
    if sounding then Sustain(m) else Silence(m)
  }

  lemma LastLengthened(before: seq<Piece>, pieces: seq<Piece>, sounding: bool, m: nat, v: real, rise: seq<real>,
                       fall: seq<real>)
    requires Orderly(pieces) && pieces == before + [LevelPiece(sounding, m)] && v == if sounding then 1.0 else 0.0
    ensures var more := before + [LevelPiece(sounding, m + 1)];
      Orderly(more) && Joined(more, rise, fall) == Joined(pieces, rise, fall) + [v]
  {
    OrderlyBefore(pieces);
    Appended(before, LevelPiece(sounding, m), rise, fall);
    Appended(before, LevelPiece(sounding, m + 1), rise, fall);
    var joined := Joined(before, rise, fall);
    assert joined + Flat(v, m + 1) == (joined + Flat(v, m)) + [v];
  }

  lemma OrderlyBefore(pieces: seq<Piece>)
    requires Orderly(pieces) && pieces != []
    ensures var before := pieces[..|pieces| - 1];
      && Orderly(before)
      && if before == [] then pieces[0].Silence? || pieces[0].WholeRise?
        else Follows(before[|before| - 1], pieces[|pieces| - 1])
  {
    var before := pieces[..|pieces| - 1];
    forall k | 0 < k < |before| ensures FollowsAt(before, k) {
      assert FollowsAt(pieces, k);
    }
    if before != [] {
      assert FollowsAt(pieces, |before|);
    }
  }

  ghost predicate InShape(s: Session, rise: seq<real>, fall: seq<real>) {
    Walking(s.t, |rise|, |fall|) && Shaped(s, rise, fall)
  }

  lemma StepShapes(s: Session, step: Step, rise: seq<real>, fall: seq<real>)
    requires rise != [] && fall != [] && InShape(s, rise, fall)
    ensures InShape(Take(s, step, rise, fall), rise, fall)
  {
    match step {
      case Key(down) => KeyShapes(s, down, rise, fall);
      case Sample =>
        if Rising(s.t) {
          RampShapes(s, rise, s.t.rise, rise, fall);
        } else if Falling(s.t) {
          RampShapes(s, fall, s.t.fall, rise, fall);
        } else {
          LevelShapes(s, rise, fall);
        }
    }
  }

  /** A command never puts anything out or breaks a ramp off. */
  lemma KeyShapes(s: Session, down: bool, rise: seq<real>, fall: seq<real>)
    requires rise != [] && fall != [] && InShape(s, rise, fall)
    ensures InShape(Take(s, Key(down), rise, fall), rise, fall)
  {
    assert rise[..0] == [] && fall[..0] == [];
  }

  lemma LevelShapes(s: Session, rise: seq<real>, fall: seq<real>)
    requires rise != [] && fall != [] && InShape(s, rise, fall)
    requires !Rising(s.t) && !Falling(s.t)
    ensures InShape(Take(s, Sample, rise, fall), rise, fall)
  {
    Lengthened(s.pieces, s.t.state.On?, rise, fall);
    var joined := Joined(s.pieces, rise, fall);
    assert joined + [] == joined;
  }

  lemma RampGrows(joined: seq<real>, ramp: seq<real>, at: nat)
    requires at < |ramp|
    ensures (joined + ramp[..at]) + [ramp[at]] == joined + ramp[..at + 1]
    ensures ramp[..|ramp|] == ramp && joined + ramp + [] == joined + ramp
  {
  }

  lemma RampShapes(s: Session, ramp: seq<real>, at: nat, rise: seq<real>, fall: seq<real>)
    requires rise != [] && fall != [] && InShape(s, rise, fall)
    requires (Rising(s.t) && ramp == rise && at == s.t.rise) || (Falling(s.t) && ramp == fall && at == s.t.fall)
    ensures InShape(Take(s, Sample, rise, fall), rise, fall)
  {
    if at + 1 == |ramp| {
      RampEnds(s, ramp, at, rise, fall);
    } else {
      RampGoesOn(s, ramp, at, rise, fall, Joined(s.pieces, rise, fall));
    }
  }

  lemma RampGoesOn(s: Session, ramp: seq<real>, at: nat, rise: seq<real>, fall: seq<real>, joined: seq<real>)
    requires InShape(s, rise, fall) && joined == Joined(s.pieces, rise, fall)
    requires (Rising(s.t) && ramp == rise && at == s.t.rise) || (Falling(s.t) && ramp == fall && at == s.t.fall)
    requires at + 1 < |ramp|
    ensures InShape(Take(s, Sample, rise, fall), rise, fall)
  {
    RampGrows(joined, ramp, at);
    assert Take(s, Sample, rise, fall).pieces == s.pieces;
  }

  lemma {:induction false} RampEnds(s: Session, ramp: seq<real>, at: nat, rise: seq<real>, fall: seq<real>)
    requires rise != [] && fall != [] && InShape(s, rise, fall)
    requires (Rising(s.t) && ramp == rise && at == s.t.rise) || (Falling(s.t) && ramp == fall && at == s.t.fall)
    requires at + 1 == |ramp|
    ensures InShape(Take(s, Sample, rise, fall), rise, fall)
  {
    var piece := if Rising(s.t) then WholeRise else WholeFall;
    var more := s.pieces + [piece];
    RampGrows(Joined(s.pieces, rise, fall), ramp, at);
    Appended(s.pieces, piece, rise, fall);
    assert s.out + [ramp[at]] == Joined(more, rise, fall);
    BetweenPieces(Session(Tick(s.t, |rise|, |fall|), s.out + [ramp[at]], more), rise, fall);
  }

  lemma BetweenPieces(s: Session, rise: seq<real>, fall: seq<real>)
    requires Walking(s.t, |rise|, |fall|) && Orderly(s.pieces) && s.out == Joined(s.pieces, rise, fall)
    requires if s.t.state.Off? || Rising(s.t) then EndsLow(s.pieces) else EndsHigh(s.pieces)
    requires (Rising(s.t) ==> s.t.rise == 0) && (Falling(s.t) ==> s.t.fall == 0)
    ensures Shaped(s, rise, fall)
  {
    assert s.out + [] == s.out && rise[..0] == [] && fall[..0] == [];
  }

  /**
   However the key is used, the envelope is made of silences, whole rises, holds at the full level and whole
   falls, in that order round, and ends with as much of a ramp as has been walked.
   */
  lemma {:induction false} EnvelopeIsWhole(steps: seq<Step>, rise: seq<real>, fall: seq<real>)
    requires rise != [] && fall != []
    ensures Shaped(Run(steps, rise, fall), rise, fall)
  {
    if steps != [] {
      EnvelopeIsWhole(steps[..|steps| - 1], rise, fall);
      StepShapes(Run(steps[..|steps| - 1], rise, fall), steps[|steps| - 1], rise, fall);
    }
  }

  // ---- how soon the last command is carried out ----

  function Ticks(t: Tone, n: nat, nr: int, nf: int): Tone {
    if n == 0 then t else Tick(Ticks(t, n - 1, nr, nf), nr, nf)
  }

  /** Samples still to come before the tone is steady at what the key says. */
  function Remaining(t: Tone, nr: int, nf: int): int {
    match t.state
    case Off | On => 0
    case Rise => nr - t.rise
    case Fall => nf - t.fall
    case RiseThenFall => nr - t.rise + nf
    case FallThenRise => nf - t.fall + nr
  }

  /** What the tone is on the way to. */
  predicate Bound(t: Tone, down: bool) {
    if down then t.state in {Rise, On, FallThenRise} else t.state in {Fall, Off, RiseThenFall}
  }

  lemma KeyIsHeard(t: Tone, down: bool)
    ensures Bound(if down then KeyOn(t) else KeyOff(t), down)
  {
  }

  lemma {:induction false} SettlesWhenDue(t: Tone, down: bool, n: nat, nr: int, nf: int)
    requires 0 < nr && 0 < nf && Walking(t, nr, nf) && Bound(t, down)
    ensures var t', left := Ticks(t, n, nr, nf), Remaining(t, nr, nf) - n;
      && Walking(t', nr, nf) && Bound(t', down)
      && Remaining(t', nr, nf) == if left > 0 then left else 0
  {
    if n > 0 {
      SettlesWhenDue(t, down, n - 1, nr, nf);
    }
  }

  /**
   From the last command on, the tone is steady in the state it asks for exactly once its ramps are done, and
   they are done within a rise and a fall.
   */
  lemma LastCommandWins(t: Tone, down: bool, n: nat, nr: int, nf: int)
    requires 0 < nr && 0 < nf && Walking(t, nr, nf)
    ensures var t0 := if down then KeyOn(t) else KeyOff(t);
      && Remaining(t0, nr, nf) <= nr + nf
      && (Ticks(t0, n, nr, nf).state == (if down then On else Off) <==> Remaining(t0, nr, nf) <= n)
  {
    KeyIsHeard(t, down);
    SettlesWhenDue(if down then KeyOn(t) else KeyOff(t), down, n, nr, nf);
  }

  /** And steady it is silent or at the full level. */
  lemma SteadyLevels(s: Session, rise: seq<real>, fall: seq<real>)
    requires Walking(s.t, |rise|, |fall|) && (s.t.state.On? || s.t.state.Off?)
    ensures Take(s, Sample, rise, fall).out == s.out + [if s.t.state.On? then 1.0 else 0.0]
    ensures Take(s, Sample, rise, fall).t == s.t
  {
  }
}
