/**
 The detimer's dot clock: how far it can be off, and how it locks on.
 Statements here are about any mixture of key and query events, in frame order.
 */
module DetimeTracking {
  import opened Morse
  import opened MovingAverage
  import opened Detime

  function DotChar(e: Element): char {
    if e.Dit? then '.' else '-'
  }

  /** A mark of length x, sent as e with nominal dot d, is off by at most j frames. */
  predicate Near(e: Element, x: nat, d: nat, j: nat) {
    var nominal := if e.Dit? then d else 3 * d;
    nominal - j <= x <= nominal + j
  }

  predicate NearSome(x: nat, d: nat, j: nat) {
    Near(Dit, x, d, j) || Near(Dah, x, d, j)
  }

  ghost predicate WindowWithin(w: seq<nat>, lo: int, hi: int) {
    forall k :: 0 <= k < |w| ==> lo <= w[k] <= hi
  }

  /** Every observation the estimate rests on is within j of two dots. */
  ghost predicate InTune(s: Timer, d: nat, j: nat) {
    && Sane(s)
    && WindowWithin(s.window, 2 * d - j, 2 * d + j)
    && (s.lastElement == 0 || NearSome(s.lastElement, d, j))
  }

  lemma InTuneTwoDot(s: Timer, d: nat, j: nat)
    requires InTune(s, d, j) && j <= 2 * d
    ensures 2 * d - j <= TwoDot(s) <= 2 * d + j
  {
    MeanBounds(s.window, 2 * d - j, 2 * d + j);
  }

  lemma MarkKeepsTune(s: Timer, now: nat, e: Element, d: nat, j: nat)
    requires InTune(s, d, j) && 0 < d && 3 * j <= d
    requires s.frame <= now && Near(e, now - s.frame, d, j)
    ensures InTune(MarkHeard(s, now).0, d, j)
    ensures MarkHeard(s, now).1 == DotChar(e)
  {
    var s' := MarkHeard(s, now).0;
    var y := now - s.frame;
    if s.lastElement != 0 && DitBesideDah(s.lastElement, y) {
      assert 2 * d - j <= (y + s.lastElement) / 2 <= 2 * d + j;
    }
    InTuneTwoDot(s', d, j);
  }

  // ---- runs of events ----

  datatype Event = Event(kind: int, frame: nat)

  /** A mark that has ended: how long it was and what the detimer took it for. */
  datatype Mark = Mark(length: nat, answer: char)

  datatype Track = Track(timer: Timer, marks: seq<Mark>)

  function Observe(t: Track, e: Event): (r: Track)
    requires Sane(t.timer) && t.timer.frame <= e.frame
    ensures Sane(r.timer) && r.timer.frame <= e.frame
  {
    var (timer, c) := Respond(t.timer, e.kind, e.frame);
    Track(timer, if e.kind == OFF then t.marks + [Mark(e.frame - t.timer.frame, c)] else t.marks)
  }

  function LastFrame(s: Timer, events: seq<Event>): nat {
    if events == [] then s.frame else events[|events| - 1].frame
  }

  /** Frame times never go back. */
  predicate Ordered(s: Timer, events: seq<Event>) {
    events == [] ||
    (Ordered(s, events[..|events| - 1]) &&
     LastFrame(s, events[..|events| - 1]) <= events[|events| - 1].frame)
  }

  /** The detimer after the events, with every mark it was given on the way. */
  ghost function Follow(s: Timer, events: seq<Event>): (r: Track)
    requires Sane(s) && Ordered(s, events)
    ensures Sane(r.timer) && r.timer.frame <= LastFrame(s, events)
  {
    if events == [] then Track(s, [])
    else Observe(Follow(s, events[..|events| - 1]), events[|events| - 1])
  }

  ghost predicate MarksNear(marks: seq<Mark>, d: nat, j: nat) {
    forall k :: 0 <= k < |marks| ==> NearSome(marks[k].length, d, j)
  }

  ghost predicate AllTold(marks: seq<Mark>, d: nat, j: nat) {
    forall k :: 0 <= k < |marks| ==>
      && (Near(Dit, marks[k].length, d, j) ==> marks[k].answer == '.')
      && (Near(Dah, marks[k].length, d, j) ==> marks[k].answer == '-')
  }

  lemma ObserveKeepsTune(t: Track, e: Event, d: nat, j: nat)
    requires InTune(t.timer, d, j) && AllTold(t.marks, d, j) && 0 < d && 3 * j <= d
    requires t.timer.frame <= e.frame && MarksNear(Observe(t, e).marks, d, j)
    ensures InTune(Observe(t, e).timer, d, j) && AllTold(Observe(t, e).marks, d, j)
  {
    if e.kind == OFF {
      var length := Observe(t, e).marks[|t.marks|].length;
      MarkKeepsTune(t.timer, e.frame, if Near(Dit, length, d, j) then Dit else Dah, d, j);
    }
  }

  lemma MarksGrow(t: Track, e: Event)
    requires Sane(t.timer) && t.timer.frame <= e.frame
    ensures t.marks <= Observe(t, e).marks
  {
  }

  /** Tolerance: marks off by at most j, with 3j <= d, are all told apart for ever. */
  lemma {:induction false} ToleranceHolds(s: Timer, events: seq<Event>, d: nat, j: nat)
    requires InTune(s, d, j) && 0 < d && 3 * j <= d
    requires Ordered(s, events) && MarksNear(Follow(s, events).marks, d, j)
    ensures InTune(Follow(s, events).timer, d, j)
    ensures 2 * d - j <= TwoDot(Follow(s, events).timer) <= 2 * d + j
    ensures AllTold(Follow(s, events).marks, d, j)
  {
    if events != [] {
      var rest := events[..|events| - 1];
      MarksGrow(Follow(s, rest), events[|rest|]);
      ToleranceHolds(s, rest, d, j);
      ObserveKeepsTune(Follow(s, rest), events[|rest|], d, j);
    }
    InTuneTwoDot(Follow(s, events).timer, d, j);
  }

  ghost predicate ToldFor(s: Timer, events: seq<Event>, d: nat, j: nat) {
    InTune(s, d, j) && Ordered(s, events) && MarksNear(Follow(s, events).marks, d, j) ==>
      AllTold(Follow(s, events).marks, d, j)
  }

  /** Marks off by at most j are told apart by every detimer in tune, over any events. */
  ghost predicate AlwaysTold(d: nat, j: nat) {
    forall s: Timer, events: seq<Event> :: ToldFor(s, events, d, j)
  }

  ghost predicate ToldFrom(s: Timer, d: nat, j: nat) {
    forall events: seq<Event> :: ToldFor(s, events, d, j)
  }

  /**
   The margin is exact: as soon as 3j exceeds d a detimer in tune takes a dit for a dah, and so does even one that
   has just been configured for exactly d.
   */
  lemma ToleranceIff(d: nat, j: nat)
    requires 0 < d
    ensures AlwaysTold(d, j) <==> 3 * j <= d
    ensures ToldFrom(Configured(d), d, j) <==> 3 * j <= d
  {
    if 3 * j <= d {
      forall s: Timer, events: seq<Event> ensures ToldFor(s, events, d, j) {
        if InTune(s, d, j) && Ordered(s, events) && MarksNear(Follow(s, events).marks, d, j) {
          ToleranceHolds(s, events, d, j);
        }
      }
    } else if d <= j {
      EitherMark(d, j);
      assert !ToldFor(Configured(d), Once(d, j), d, j);
    } else {
      UnevenDitIsDah(d, j);
      assert !ToldFor(Configured(d), Uneven(d, j, LENGTH + 2), d, j);
    }
  }

  function Once(d: nat, j: nat): seq<Event> {
    [Event(ON, 0), Event(OFF, d + j)]
  }

  /** The slowest dit is no shorter than the fastest dah, so one mark may be either. */
  lemma EitherMark(d: nat, j: nat)
    requires 0 < d <= j
    ensures !ToldFor(Configured(d), Once(d, j), d, j)
  {
    var s, events := Configured(d), Once(d, j);
    FollowTwo(s, [], events[0], events[1], events);
    var mark := Follow(s, events).marks[0];
    assert Follow(s, events).marks == [mark] && mark.length == d + j;
    assert Near(Dit, mark.length, d, j) && Near(Dah, mark.length, d, j);
  }

  lemma FollowOne(s: Timer, before: seq<Event>, e: Event)
    requires Sane(s) && Ordered(s, before) && LastFrame(s, before) <= e.frame
    ensures Ordered(s, before + [e]) && LastFrame(s, before + [e]) == e.frame
    ensures Follow(s, before + [e]) == Observe(Follow(s, before), e)
  {
    assert (before + [e])[..|before|] == before;
  }

  lemma FollowTwo(s: Timer, before: seq<Event>, e: Event, f: Event, after: seq<Event>)
    requires Sane(s) && Ordered(s, before) && LastFrame(s, before) <= e.frame <= f.frame && after == before + [e, f]
    ensures Ordered(s, after) && LastFrame(s, after) == f.frame
    ensures Follow(s, after) == Observe(Observe(Follow(s, before), e), f)
  {
    FollowOne(s, before, e);
    FollowOne(s, before + [e], f);
    assert after == (before + [e]) + [f];
  }

  /** A dit within j that is less than half the slowest, and more than a quarter. */
  function Fast(d: nat, j: nat): nat
    requires j <= d
  {
    var least := (d + j) / 4 + 1;
    if d - j < least then least else d - j
  }

  lemma FastBesideSlow(d: nat, j: nat)
    requires j < d < 3 * j
    ensures d - j <= Fast(d, j) && 2 * Fast(d, j) < d + j < 4 * Fast(d, j)
  {
  }

  /** Fast and slow dits in turn, with a dot between: the length of the n-th, and where it ends. */
  function UnevenLength(d: nat, j: nat, n: nat): nat
    requires j <= d
  {
    if n % 2 == 1 then Fast(d, j) else d + j
  }

  /** What the timer learns from two of them. */
  function Learnt(d: nat, j: nat): nat
    requires j <= d
  {
    (Fast(d, j) + d + j) / 2
  }

  function UnevenEnd(d: nat, j: nat, n: nat): nat
    requires j <= d
  {
    if n == 0 then 0 else UnevenEnd(d, j, n - 1) + d + UnevenLength(d, j, n)
  }

  function Uneven(d: nat, j: nat, n: nat): seq<Event>
    requires j <= d
  {
    if n == 0 then []
    else Uneven(d, j, n - 1) + [Event(ON, UnevenEnd(d, j, n - 1) + d), Event(OFF, UnevenEnd(d, j, n))]
  }

  /**
   Every fast dit beside a slow one is taken for a dit beside a dah, so that two dots become shorter than the
   slow one.
   */
  ghost predicate Learning(s: Timer, d: nat, j: nat, n: nat)
    requires j <= d
  {
    && Sane(s) && s.frame == UnevenEnd(d, j, n)
    && s.lastElement == (if n == 0 then 0 else UnevenLength(d, j, n))
    && forall k :: 0 <= k < LENGTH && LENGTH - n < k ==> s.window[k] == Learnt(d, j)
  }

  /** All n marks are near, and the last, when it is slow and the window full, is taken for a dah. */
  ghost predicate Misheard(marks: seq<Mark>, d: nat, j: nat, n: nat) {
    |marks| == n && MarksNear(marks, d, j) && (LENGTH + 1 < n && n % 2 == 0 ==> marks[n - 1] == Mark(d + j, '-'))
  }

  ghost predicate Misled(t: Track, d: nat, j: nat, n: nat)
    requires j <= d
  {
    Learning(t.timer, d, j, n) && Misheard(t.marks, d, j, n)
  }

  /** What the timer learns from the next mark, and takes it for. */
  lemma MisledMark(s: Timer, d: nat, j: nat, n: nat, up: nat, down: nat)
    requires j < d < 3 * j && Learning(s, d, j, n) && s.frame <= up && down == UnevenEnd(d, j, n + 1)
    requires down - up == UnevenLength(d, j, n + 1)
    ensures var (s', c) := MarkHeard(SpaceHeard(s, up), down);
      Learning(s', d, j, n + 1) && (LENGTH < n && n % 2 == 1 ==> c == '-')
  {
    var length := UnevenLength(d, j, n + 1);
    FastBesideSlow(d, j);
    assert n > 0 ==> DitBesideDah(s.lastElement, length) && (length + s.lastElement) / 2 == Learnt(d, j);
    if LENGTH < n {
      MeanBounds(Slide(s.window, Learnt(d, j)), Learnt(d, j), Learnt(d, j));
    }
  }

  lemma MisheardMore(marks: seq<Mark>, d: nat, j: nat, n: nat, mark: Mark)
    requires j < d < 3 * j && Misheard(marks, d, j, n) && mark.length == UnevenLength(d, j, n + 1)
    requires LENGTH < n && n % 2 == 1 ==> mark.answer == '-'
    ensures Misheard(marks + [mark], d, j, n + 1)
  {
    FastBesideSlow(d, j);
    assert NearSome(mark.length, d, j);
  }

  lemma MisledStep(t: Track, d: nat, j: nat, n: nat, up: nat, down: nat)
    requires j < d < 3 * j && Misled(t, d, j, n) && up == UnevenEnd(d, j, n) + d && down == UnevenEnd(d, j, n + 1)
    ensures Misled(Observe(Observe(t, Event(ON, up)), Event(OFF, down)), d, j, n + 1)
  {
    MisledMark(t.timer, d, j, n, up, down);
    var answer := MarkHeard(SpaceHeard(t.timer, up), down).1;
    MisheardMore(t.marks, d, j, n, Mark(down - up, answer));
  }

  ghost predicate MisledAfter(s: Timer, events: seq<Event>, d: nat, j: nat, n: nat)
    requires j <= d
  {
    Sane(s) && Ordered(s, events) && LastFrame(s, events) == UnevenEnd(d, j, n) && Misled(Follow(s, events), d, j, n)
  }

  lemma MisledMore(s: Timer, before: seq<Event>, after: seq<Event>, d: nat, j: nat, n: nat, e: Event, f: Event)
    requires j < d < 3 * j && MisledAfter(s, before, d, j, n) && after == before + [e, f]
    requires e == Event(ON, UnevenEnd(d, j, n) + d) && f == Event(OFF, UnevenEnd(d, j, n + 1))
    ensures MisledAfter(s, after, d, j, n + 1)
  {
    FollowTwo(s, before, e, f, after);
    MisledStep(Follow(s, before), d, j, n, e.frame, f.frame);
  }

  lemma NotYetMisled(s: Timer, d: nat, j: nat)
    requires j <= d && s == Configured(d)
    ensures MisledAfter(s, [], d, j, 0)
  {
  }

  lemma {:induction false} MisledRun(s: Timer, d: nat, j: nat, n: nat)
    requires j < d < 3 * j && s == Configured(d)
    ensures MisledAfter(s, Uneven(d, j, n), d, j, n)
  {
    if n == 0 {
      NotYetMisled(s, d, j);
    } else {
      var e, f := Event(ON, UnevenEnd(d, j, n - 1) + d), Event(OFF, UnevenEnd(d, j, n));
      MisledRun(s, d, j, n - 1);
      MisledMore(s, Uneven(d, j, n - 1), Uneven(d, j, n), d, j, n - 1, e, f);
    }
  }

  /** Seventeen uneven dits make two dots shorter than a slow dit, and the next slow dit is taken for a dah. */
  lemma UnevenDitIsDah(d: nat, j: nat)
    requires j < d < 3 * j
    ensures !ToldFor(Configured(d), Uneven(d, j, LENGTH + 2), d, j)
  {
    MisledRun(Configured(d), d, j, LENGTH + 2);
    TakenForDah(Configured(d), Uneven(d, j, LENGTH + 2), d, j, LENGTH + 2);
  }

  lemma TakenForDah(s: Timer, events: seq<Event>, d: nat, j: nat, n: nat)
    requires j <= d && InTune(s, d, j) && MisledAfter(s, events, d, j, n) && n == LENGTH + 2
    ensures !ToldFor(s, events, d, j)
  {
    assert Near(Dit, Follow(s, events).marks[n - 1].length, d, j);
  }

  // ---- lock-in ----

  /** How many marks differ in length from the mark before them. */
  function Changes(marks: seq<Mark>): nat {
    if |marks| < 2 then 0
    else Changes(marks[..|marks| - 1]) +
         (if marks[|marks| - 1].length != marks[|marks| - 2].length then 1 else 0)
  }

  /** What the marks so far have forced: the last length, and the newest Changes(marks) observations. */
  ghost predicate Filled(t: Track, d: nat) {
    && Sane(t.timer)
    && (t.marks != [] ==> t.timer.lastElement == t.marks[|t.marks| - 1].length)
    && (forall k :: 0 <= k < LENGTH && LENGTH - Changes(t.marks) <= k ==> t.timer.window[k] == 2 * d)
  }

  lemma ObserveFills(t: Track, e: Event, d: nat)
    requires Filled(t, d) && 0 < d && t.timer.frame <= e.frame
    requires MarksNear(Observe(t, e).marks, d, 0)
    ensures Filled(Observe(t, e), d)
  {
    if e.kind == OFF {
      var marks := Observe(t, e).marks;
      assert marks[..|t.marks|] == t.marks;
      assert NearSome(marks[|t.marks|].length, d, 0);
      if t.marks != [] {
        var x, y := marks[|t.marks| - 1].length, marks[|t.marks|].length;
        assert x != y <==> DitBesideDah(x, y);
      }
    }
  }

  lemma {:induction false} ChangesFillWindow(s: Timer, events: seq<Event>, d: nat)
    requires Sane(s) && 0 < d && Ordered(s, events)
    requires MarksNear(Follow(s, events).marks, d, 0)
    ensures Filled(Follow(s, events), d)
  {
    if events != [] {
      var rest := events[..|events| - 1];
      MarksGrow(Follow(s, rest), events[|rest|]);
      ChangesFillWindow(s, rest, d);
      ObserveFills(Follow(s, rest), events[|rest|], d);
    }
  }

  /** From any state, sixteen changes between marks of exactly d and 3d set two dots to exactly 2d. */
  lemma LockIn(s: Timer, events: seq<Event>, d: nat)
    requires Sane(s) && 0 < d && Ordered(s, events)
    requires MarksNear(Follow(s, events).marks, d, 0)
    requires Changes(Follow(s, events).marks) >= LENGTH
    ensures TwoDot(Follow(s, events).timer) == 2 * d
    ensures InTune(Follow(s, events).timer, d, 0)
  {
    ChangesFillWindow(s, events, d);
    InTuneTwoDot(Follow(s, events).timer, d, 0);
  }
}
