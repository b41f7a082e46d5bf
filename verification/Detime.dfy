/** dspmath/filter_moving_average16.h */
module MovingAverage {
  const LENGTH := 16

  function Sum(s: seq<nat>): nat {
    if s == [] then 0 else s[0] + Sum(s[1..])
  }

  function Mean(window: seq<nat>): nat {
    Sum(window) / LENGTH
  }

  /** The window after one more observation: the oldest value goes, the newest is last. */
  function Slide(window: seq<nat>, a: nat): (w: seq<nat>)
    requires |window| == LENGTH
    ensures |w| == LENGTH
  {
    window[1..] + [a]
  }

  lemma {:induction false} SumConcat(s: seq<nat>, t: seq<nat>)
    ensures Sum(s + t) == Sum(s) + Sum(t)
  {
    if s == [] {
      assert s + t == t;
    } else {
      assert (s + t)[1..] == s[1..] + t;
      SumConcat(s[1..], t);
    }
  }

  lemma {:induction false} SumBounds(s: seq<nat>, lo: nat, hi: nat)
    requires forall k :: 0 <= k < |s| ==> lo <= s[k] <= hi
    ensures lo * |s| <= Sum(s) <= hi * |s|
  {
    if s != [] {
      SumBounds(s[1..], lo, hi);
      assert lo * |s| == lo + lo * (|s| - 1) && hi * |s| == hi + hi * (|s| - 1);
    }
  }

  lemma MeanBounds(window: seq<nat>, lo: nat, hi: nat)
    requires |window| == LENGTH
    requires forall k :: 0 <= k < |window| ==> lo <= window[k] <= hi
    ensures lo <= Mean(window) <= hi
  {
    SumBounds(window, lo, hi);
  }

  class MovingAverage16 {
    var sum: nat
    var i: nat
    const inp: array<nat>

    ghost predicate Valid()
      reads this, inp
    {
      inp.Length == LENGTH && i < LENGTH && sum == Sum(Window())
    }

    /** The last sixteen observations, oldest first. */
    ghost function Window(): (w: seq<nat>)
      requires inp.Length == LENGTH && i < LENGTH
      reads this, inp
      ensures |w| == LENGTH
    {
      inp[i..] + inp[..i]
    }

    constructor ()
      ensures Valid() && fresh(inp)
    {
      inp := new nat[LENGTH](_ => 0);
      sum, i := 0, 0;
      new;
      SumBounds(Window(), 0, 0);
    }

    method Init(init: nat) returns (r: nat)
      requires inp.Length == LENGTH
      modifies this, inp
      ensures Valid() && r == init == Mean(Window())
      ensures Window() == seq(LENGTH, _ => init)
    {
      sum := LENGTH * init;
      i := 0;
      for k := 0 to LENGTH
        invariant forall m :: 0 <= m < k ==> inp[m] == init
        invariant sum == LENGTH * init && i == 0
      {
        inp[k] := init;
      }
      SumBounds(Window(), init, init);
      return init;
    }

    method Process(a: nat) returns (r: nat)
      requires Valid()
      modifies this, inp
      ensures Valid() && Window() == Slide(old(Window()), a)
      ensures r == Mean(Window())
    {
      ghost var w := Window();
      assert w[0] == inp[i];
      assert w == [inp[i]] + w[1..];
      SumConcat([inp[i]], w[1..]);
      SumConcat(w[1..], [a]);
      sum := sum - (inp[i] - a);
      inp[i] := a;
      i := i + 1;
      if i == LENGTH { i := 0; }
      assert Window() == Slide(w, a);
      r := sum / LENGTH;
    }
  }
}

/** dspmath/detime.h: recover dits, dahs, letter gaps and word gaps from key transitions. */
module Detime {
  import opened Morse
  import opened MovingAverage

  // values shared by the state and by the event argument
  const OFF := 0
  const ON := 1
  const QUERY := 2
  const IDLE := 4
  const IDLE2 := 5

  const NOTHING: char := '\0'

  /** The detimer as a value.  The dot clock estimate is the mean of the window. */
  datatype Timer = Timer(state: int, frame: nat, lastElement: nat, lastSpace: nat, window: seq<nat>)

  ghost predicate Sane(s: Timer) {
    |s.window| == LENGTH && s.state in {OFF, ON, IDLE, IDLE2}
  }

  function TwoDot(s: Timer): nat {
    Mean(s.window)
  }

  /** Two neighbouring marks taken for a dit and a dah, in either order. */
  predicate DitBesideDah(x: nat, y: nat) {
    2 * x < y < 4 * x || 2 * y < x < 4 * y
  }

  function MarkHeard(s: Timer, frame: nat): (r: (Timer, char))
    requires Sane(s) && s.frame <= frame
    ensures Sane(r.0)
  {
    var length := frame - s.frame;
    var window := if s.lastElement != 0 && DitBesideDah(s.lastElement, length)
                  then Slide(s.window, (length + s.lastElement) / 2) else s.window;
    (s.(state := OFF, frame := frame, lastElement := length, window := window),
     if length <= Mean(window) then '.' else '-')
  }

  function SpaceHeard(s: Timer, frame: nat): (r: Timer)
    requires Sane(s) && s.frame <= frame
    ensures Sane(r)
  {
    s.(state := ON, frame := frame, lastSpace := frame - s.frame)
  }

  function Queried(s: Timer, frame: nat): (r: (Timer, char))
    requires Sane(s) && s.frame <= frame
    ensures Sane(r.0)
  {
    var silence := frame - s.frame;
    if s.state == OFF && silence > TwoDot(s) then (s.(state := IDLE), ' ')
    else if s.state == IDLE && silence > 3 * TwoDot(s) then (s.(state := IDLE2), ' ')
    else (s, NOTHING)
  }

  function Respond(s: Timer, event: int, frame: nat): (Timer, char)
    requires Sane(s) && s.frame <= frame
  {
    if event == OFF then MarkHeard(s, frame)
    else if event == ON then (SpaceHeard(s, frame), NOTHING)
    else if event == QUERY then Queried(s, frame)
    else (s, NOTHING)
  }

  /**
   Exactly which marks it learns from, and what: a neighbour more than twice and less than four times as long,
   and half their sum.
   */
  lemma LearnsIff(s: Timer, now: nat)
    requires Sane(s) && s.frame <= now
    ensures var y := now - s.frame;
      var short, long := if s.lastElement < y then s.lastElement else y, if s.lastElement < y then y else s.lastElement;
      MarkHeard(s, now).0.window ==
        if s.lastElement > 0 && 2 * short < long < 4 * short then s.window[1..] + [(short + long) / 2] else s.window
  {
  }

  /**
   Exactly when it takes a mark for a dit: sixteen times its length is at most the sum of the last sixteen
   observations.
   */
  lemma DitIff(s: Timer, now: nat)
    requires Sane(s) && s.frame <= now
    ensures MarkHeard(s, now).1 == '.' <==> 16 * (now - s.frame) <= Sum(MarkHeard(s, now).0.window)
  {
  }

  lemma MarkHeardIs(s: Timer, now: nat, window: seq<nat>)
    requires Sane(s) && s.frame <= now
    requires window == if s.lastElement != 0 && DitBesideDah(s.lastElement, now - s.frame)
      then Slide(s.window, (now - s.frame + s.lastElement) / 2) else s.window
    ensures MarkHeard(s, now) ==
      (Timer(OFF, now, now - s.frame, s.lastSpace, window), if now - s.frame <= Mean(window) then '.' else '-')
  {
  }

  class Detimer {
    var state: int
    var frame: nat
    var lastElement: nat
    var lastSpace: nat
    var twoDot: nat
    const avg: MovingAverage16

    ghost predicate Valid()
      reads this, avg, avg.inp
    {
      avg.Valid() && twoDot == Mean(avg.Window()) && state in {OFF, ON, IDLE, IDLE2}
    }

    ghost function Value(): (s: Timer)
      requires Valid()
      reads this, avg, avg.inp
      ensures Sane(s) && TwoDot(s) == twoDot
    {
      Timer(state, frame, lastElement, lastSpace, avg.Window())
    }

    // The host zero-fills the object before it is configured.
    constructor (spd: nat)
      ensures Valid() && fresh(avg) && fresh(avg.inp)
      ensures Value() == Configured(spd)
    {
      frame := 0;
      avg := new MovingAverage16();
      new;
      Configure(spd);
    }

    method Configure(spd: nat)
      requires avg.inp.Length == LENGTH
      modifies this, avg, avg.inp
      ensures Valid() && Value() == Configured(spd).(frame := old(frame))
    {
      state := IDLE;
      lastElement := 0;
      lastSpace := 0;
      twoDot := avg.Init(2 * spd);
    }

    /** Half the sum of two neighbouring marks of which one is taken for a dit and the other for a dah. */
    method Learn(observation: nat)
      requires Valid()
      modifies `twoDot, avg, avg.inp
      ensures Valid()
      ensures avg.Window() == if lastElement != 0 && DitBesideDah(lastElement, observation)
        then Slide(old(avg.Window()), (observation + lastElement) / 2) else old(avg.Window())
    {
      if lastElement != 0 {
        if (observation > 2 * lastElement && observation < 4 * lastElement) ||
           (lastElement > 2 * observation && lastElement < 4 * observation) {
          twoDot := avg.Process((observation + lastElement) / 2);
        }
      }
    }

    /** The key went up: learn from the mark if it is unlike the one before, then tell dit from dah. */
    method EndMark(now: nat) returns (c: char)
      requires Valid() && frame <= now
      modifies this, avg, avg.inp
      ensures Valid()
      ensures (Value(), c) == MarkHeard(old(Value()), now)
    {
      ghost var s := Value();
      var observation := now - frame;
      frame := now;
      Learn(observation);
      lastElement := observation;
      state := OFF;
      c := if observation <= twoDot then '.' else '-';
      MarkHeardIs(s, now, avg.Window());
    }

    method Process(event: int, now: nat) returns (c: char)
      requires Valid() && frame <= now
      modifies this, avg, avg.inp
      ensures Valid()
      ensures (Value(), c) == Respond(old(Value()), event, now)
    {
      var observation := now - frame;
      if event == OFF {
        c := EndMark(now);
      } else if event == ON {
        frame := now;
        lastSpace := observation;
        state := ON;
        c := NOTHING;
      } else if event == QUERY {
        c := NOTHING;
        if state == OFF {
          if observation > twoDot {
            state := IDLE;
            c := ' ';
          }
        } else if state == IDLE {
          if observation > 3 * twoDot {
            state := IDLE2;
            c := ' ';
          }
        }
      } else {
        c := NOTHING;
      }
    }
  }

  /** The detimer as configured for spd samples per dot, from a zero-filled object. */
  function Configured(spd: nat): Timer {
    Timer(IDLE, 0, 0, 0, seq(LENGTH, _ => 2 * spd))
  }

  // ---- runs over the frames of the key line ----

  function Out(c: char): string {
    if c == NOTHING then "" else [c]
  }

  /** The detimer and the text it has written so far. */
  datatype Session = Session(timer: Timer, heard: string)

  ghost predicate Ready(s: Session, now: nat) {
    Sane(s.timer) && s.timer.frame <= now
  }

  function HearEdge(s: Session, now: nat, e: Edge): (r: Session)
    requires Ready(s, now)
    ensures Ready(r, now)
  {
    match e
    case Quiet => s
    case KeyDown => Session(SpaceHeard(s.timer, now), s.heard)
    case KeyUp => var (t, c) := MarkHeard(s.timer, now); Session(t, s.heard + Out(c))
  }

  function Poll(s: Session, now: nat): (r: Session)
    requires Ready(s, now)
    ensures Ready(r, now)
  {
    var (t, c) := Queried(s.timer, now);
    Session(t, s.heard + Out(c))
  }

  /** One frame of sdrtcl/keyer_detime.c: the key event if any, then the query if one is due. */
  function HearFrame(s: Session, now: nat, e: Edge, poll: bool): (r: Session)
    requires Ready(s, now)
    ensures Ready(r, now)
  {
    var s1 := HearEdge(s, now, e);
    if poll then Poll(s1, now) else s1
  }

  /** All the frames from `start` on, one edge each. */
  ghost function Hear(s: Session, start: nat, edges: seq<Edge>, polled: nat -> bool): (r: Session)
    requires Ready(s, start)
    ensures Ready(r, start + |edges|)
  {
    if edges == [] then s else
      var now := start + |edges| - 1;
      HearFrame(Hear(s, start, edges[..|edges| - 1], polled), now, edges[|edges| - 1], polled(now))
  }

  lemma {:induction false} HearStep(s: Session, start: nat, edges: seq<Edge>, polled: nat -> bool,
                                    before: Session, now: nat, e: Edge)
    requires Ready(s, start) && edges != [] && e == edges[|edges| - 1] && now == start + |edges| - 1
    requires before == Hear(s, start, edges[..|edges| - 1], polled)
    ensures Hear(s, start, edges, polled) == HearFrame(before, now, e, polled(now))
  {
  }

  lemma {:induction false} HearConcat(s: Session, start: nat, a: seq<Edge>, b: seq<Edge>, polled: nat -> bool)
    requires Ready(s, start)
    ensures Hear(s, start, a + b, polled) == Hear(Hear(s, start, a, polled), start + |a|, b, polled)
  {
    if b == [] {
      assert a + b == a;
    } else {
      var m := |b| - 1;
      var before, now := Hear(s, start, a + b[..m], polled), start + |a| + m;
      HearConcat(s, start, a, b[..m], polled);
      assert (a + b)[..|a + b| - 1] == a + b[..m];
      HearStep(s, start, a + b, polled, before, now, b[m]);
      HearStep(Hear(s, start, a, polled), start + |a|, b, polled, before, now, b[m]);
    }
  }
}
