/**
 dspmath/iambic_nd7pa.h on the paddle levels as they come in: what each element was asked for by, and when a
 press counts.
 */
module Nd7paPaddles {
  import opened Morse
  import opened Keying
  import opened Paddles
  import opened Asking
  import opened IambicNd7pa

  lemma {:induction false} RunMore(c: Config, k: Keyer, raws: seq<Keys>, raw: Keys)
    ensures Run(c, k, raws + [raw]) == Next(c, Run(c, k, raws), raw, 1)
    ensures Trace(c, k, raws + [raw]) == Trace(c, k, raws) + [Run(c, k, raws + [raw]).keyOut]
  {
    assert (raws + [raw])[..|raws|] == raws;
  }

  // ---- no element without its paddle ----

  /** In a mark that the output has not come to yet. */
  predicate Starting(k: Keyer) {
    k.phase.Mark? && k.keyOut != Code(k.phase.e)
  }

  /** An element is pending only during the other one and the delay after it, and not before that has come out. */
  ghost predicate InOrder(k: Keyer) {
    && IsOutput(k.keyOut)
    && (k.phase.Idle? || Starting(k) ==> k.pending == UP && k.keyOut == OFF)
    && (k.phase.Mark? ==> !Has(k.pending, k.phase.e))
    && (k.phase.Delay? ==> !Has(k.pending, k.phase.e) && (k.keyOut == OFF || k.keyOut == Code(k.phase.e)))
  }

  lemma StepInOrder(c: Config, k: Keyer, raw: Keys, k': Keyer)
    requires Positive(c.times) && InOrder(k) && k' == Next(c, k, raw, 1)
    ensures InOrder(k') && k'.keyOut == OutputIn(k.phase)
    ensures Begins(k.keyOut, k'.keyOut) <==> Starting(k)
    ensures Starting(k) ==> k'.keyOut == Code(k.phase.e)
  {
  }

  /**
   What the call makes of the paddles: a mark starts for a press now or a pending one, and a press now may
   become pending.
   */
  lemma StepAsks(c: Config, k: Keyer, raw: Keys, k': Keyer)
    requires Positive(c.times) && InOrder(k) && k' == Next(c, k, raw, 1)
    ensures Starting(k') ==> Has(k.pending, k'.phase.e) || Pressed(c.swapped, raw, k'.phase.e)
    ensures forall e: Element :: Has(k'.pending, e) ==> Has(k.pending, e) || Pressed(c.swapped, raw, e)
  {
  }

  /** What is pending has been pressed since the call that began the last mark, and so has what is about to come out. */
  ghost predicate Recalls(c: Config, k: Keyer, raws: seq<Keys>, outs: seq<int>) {
    && Remembered(c.swapped, raws, outs, 1, k.pending)
    && (Starting(k) ==> AskedSince(c.swapped, raws, outs, 1, k.phase.e))
  }

  /** A press now is one since the last mark, whether the last one begins now or not. */
  lemma NowIsSince(swapped: bool, raws: seq<Keys>, raw: Keys, outs: seq<int>, out: int, outs': seq<int>, e: Element)
    requires |raws| == |outs| && outs' == outs + [out] && Pressed(swapped, raw, e)
    ensures AskedSince(swapped, raws + [raw], outs', 1, e)
  {
    BeganBefore(outs);
    MoreSince(outs, out, outs', 1);
    PressedBetweenMore(swapped, raws, raw, Since(outs', 1), |raws| + 1, e);
  }

  /** A press before still is, if no mark begins now. */
  lemma StillSince(swapped: bool, raws: seq<Keys>, raw: Keys, outs: seq<int>, out: int, outs': seq<int>, e: Element)
    requires |raws| == |outs| && outs' == outs + [out] && !Begins(FinalOutput(outs), out)
    requires AskedSince(swapped, raws, outs, 1, e)
    ensures AskedSince(swapped, raws + [raw], outs', 1, e)
  {
    MoreSince(outs, out, outs', 1);
    var j :| 0 <= j < |raws| && Since(outs, 1) <= j < |raws| && Pressed(swapped, raws[j], e);
    assert (raws + [raw])[j] == raws[j];
  }

  lemma StepRecalls(c: Config, k: Keyer, raws: seq<Keys>, raw: Keys, outs: seq<int>, k': Keyer, outs': seq<int>)
    requires Positive(c.times) && InOrder(k) && k' == Next(c, k, raw, 1) && k.keyOut == FinalOutput(outs)
    requires |raws| == |outs| && outs' == outs + [k'.keyOut] && Recalls(c, k, raws, outs)
    ensures Recalls(c, k', raws + [raw], outs')
  {
    StepInOrder(c, k, raw, k');
    StepAsks(c, k, raw, k');
    forall e: Element | Pressed(c.swapped, raw, e) ensures AskedSince(c.swapped, raws + [raw], outs', 1, e) {
      NowIsSince(c.swapped, raws, raw, outs, k'.keyOut, outs', e);
    }
    forall e: Element | Has(k.pending, e) ensures AskedSince(c.swapped, raws + [raw], outs', 1, e) {
      StillSince(c.swapped, raws, raw, outs, k'.keyOut, outs', e);
    }
  }

  lemma StepAsked(c: Config, k: Keyer, raws: seq<Keys>, raw: Keys, outs: seq<int>, k': Keyer, outs': seq<int>)
    requires Positive(c.times) && InOrder(k) && k' == Next(c, k, raw, 1) && k.keyOut == FinalOutput(outs)
    requires outs' == outs + [k'.keyOut] && Recalls(c, k, raws, outs) && AllAsked(c.swapped, raws, outs, 1)
    ensures AllAsked(c.swapped, raws + [raw], outs', 1)
  {
    StepInOrder(c, k, raw, k');
    if Starting(k) {
      PressedBetweenMore(c.swapped, raws, raw, Since(outs, 1), |raws|, k.phase.e);
    }
    MoreAsked(c.swapped, raws, raw, outs, k'.keyOut, outs', 1);
  }

  /**
   Whatever the paddles do, swapped or not: no mark begins unless the paddle for its element has been down since the
   call that began the mark before.  The output follows by one call.
   */
  lemma {:induction false} EveryMarkIsAsked(c: Config, raws: seq<Keys>)
    requires Positive(c.times)
    ensures AllAsked(c.swapped, raws, Trace(c, AT_REST, raws), 1)
    ensures var k, outs := Run(c, AT_REST, raws), Trace(c, AT_REST, raws);
      InOrder(k) && k.keyOut == FinalOutput(outs) && Recalls(c, k, raws, outs)
  {
    if raws != [] {
      var rest, raw := raws[..|raws| - 1], raws[|raws| - 1];
      assert raws == rest + [raw];
      EveryMarkIsAsked(c, rest);
      RunMore(c, AT_REST, rest, raw);
      var k, k' := Run(c, AT_REST, rest), Run(c, AT_REST, raws);
      var outs, outs' := Trace(c, AT_REST, rest), Trace(c, AT_REST, raws);
      StepInOrder(c, k, raw, k');
      StepRecalls(c, k, rest, raw, outs, k', outs');
      StepAsked(c, k, rest, raw, outs, k', outs');
    }
  }

  /** Nothing sent, nothing asked for. */
  ghost predicate Clear(k: Keyer) {
    k.phase.Idle? && k.pending == UP
  }

  /** A mark of e begins, and nothing has been asked for since. */
  ghost predicate Entered(c: Config, k: Keyer, e: Element) {
    k.phase == Mark(e) && k.timer == MarkTicks(c.times, e) && k.pending == UP
  }

  /** What an idle call begins, by the paddles at that call: a dit before a dah. */
  lemma IdleCall(c: Config, k: Keyer, raw: Keys, ticks: int)
    requires Positive(c.times) && Clear(k)
    ensures var k' := Next(c, k, raw, ticks);
      && k'.keyOut == OFF
      && if Pressed(c.swapped, raw, Dit) then Entered(c, k', Dit)
         else if Pressed(c.swapped, raw, Dah) then Entered(c, k', Dah)
         else Clear(k')
  {
  }

  // ---- no press without its element, if it comes in time ----

  /**
   A press of the other paddle counts from the last half of a dit, or the last third of a dah, or its last call, ...
   */
  function Early(c: Config, e: Element): int {
    var t := c.times;
    if e.Dit? then if t.dit < 2 then t.dit - 1 else t.dit - t.dit / 2
    else if t.dah < 3 then t.dah - 1 else t.dah - t.dah / 3
  }

  /** ... to the first half of the space after it. */
  function TooLate(c: Config, e: Element): int {
    MarkTicks(c.times, e) + c.times.ies - c.times.ies / 2
  }

  /**
   The other paddle is down at a call, counted from the one that began the mark, after the first and before the
   second.
   */
  ghost predicate InTime(c: Config, raws: seq<Keys>, e: Element) {
    exists j :: 0 <= j < |raws| && Early(c, e) < j + 1 < TooLate(c, e) && Pressed(c.swapped, raws[j], Other(e))
  }

  lemma InTimeMore(c: Config, raws: seq<Keys>, last: Keys, e: Element)
    ensures InTime(c, raws + [last], e) <==>
      InTime(c, raws, e) || (Early(c, e) < |raws| + 1 < TooLate(c, e) && Pressed(c.swapped, last, Other(e)))
  {
    var more := raws + [last];
    if InTime(c, raws, e) {
      var j :| 0 <= j < |raws| && Early(c, e) < j + 1 < TooLate(c, e) && Pressed(c.swapped, raws[j], Other(e));
      assert more[j] == raws[j];
    }
    assert more[|raws|] == last;
  }

  /** Where n calls lead from the beginning of a mark of e. */
  ghost predicate Within(c: Config, k: Keyer, e: Element, n: nat, asked: bool) {
    var m := MarkTicks(c.times, e);
    && k.pending == (if !asked then UP else if e.Dit? then Keys(false, true) else Keys(true, false))
    && if n < m then k.phase == Mark(e) && k.timer == m - n
       else k.phase == Delay(e) && k.timer == m + c.times.ies - n
  }

  lemma WithinStep(c: Config, k: Keyer, e: Element, n: nat, asked: bool, raw: Keys)
    requires Positive(c.times) && Within(c, k, e, n, asked) && n + 1 < MarkTicks(c.times, e) + c.times.ies
    ensures var k', now := Next(c, k, raw, 1), Early(c, e) < n + 1 < TooLate(c, e) && Pressed(c.swapped, raw, Other(e));
      Within(c, k', e, n + 1, asked || now) && k'.keyOut == if n < MarkTicks(c.times, e) then Code(e) else OFF
  {
  }

  lemma {:induction false} WithinRun(c: Config, k: Keyer, e: Element, raws: seq<Keys>)
    requires Positive(c.times) && Entered(c, k, e) && |raws| < MarkTicks(c.times, e) + c.times.ies
    ensures Within(c, Run(c, k, raws), e, |raws|, InTime(c, raws, e))
    ensures var m := MarkTicks(c.times, e);
      Trace(c, k, raws) ==
        if |raws| <= m then Constant(Code(e), |raws|) else Constant(Code(e), m) + Constant(OFF, |raws| - m)
  {
    if raws != [] {
      var rest, raw := raws[..|raws| - 1], raws[|raws| - 1];
      assert raws == rest + [raw];
      WithinRun(c, k, e, rest);
      InTimeMore(c, rest, raw, e);
      WithinStep(c, Run(c, k, rest), e, |rest|, InTime(c, rest, e), raw);
      RunMore(c, k, rest, raw);
      var m := MarkTicks(c.times, e);
      assert |rest| >= m ==> Constant(OFF, |rest| - m) + [OFF] == Constant(OFF, |raws| - m);
    }
  }

  /**
   Exactly what follows a mark: its space, and then the other element if its paddle was down in time, or else nothing
   until the next call with a paddle down.
   */
  lemma {:induction false} AfterMark(c: Config, k: Keyer, e: Element, raws: seq<Keys>, last: Keys)
    requires Positive(c.times) && Entered(c, k, e) && |raws| + 1 == MarkTicks(c.times, e) + c.times.ies
    ensures var r := Run(c, k, raws + [last]);
      if InTime(c, raws, e) then Entered(c, r, Other(e)) else Clear(r)
    ensures Trace(c, k, raws + [last]) == Constant(Code(e), MarkTicks(c.times, e)) + Constant(OFF, c.times.ies)
  {
    WithinRun(c, k, e, raws);
    RunMore(c, k, raws, last);
    assert c.times.ies > 0 ==> Constant(OFF, c.times.ies - 1) + [OFF] == Constant(OFF, c.times.ies);
  }
}
