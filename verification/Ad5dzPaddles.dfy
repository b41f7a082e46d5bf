/** dspmath/iambic_ad5dz.h on the paddle levels as they come in: what each element was asked for by. */
module Ad5dzPaddles {
  import opened Morse
  import opened Keying
  import opened Paddles
  import opened Asking
  import opened IambicAd5dz

  /** The levels at the paddle inputs as `Clock` hands them to the keyer. */
  function Fixed(c: Config, raws: seq<Keys>): (s: seq<Keys>)
    ensures |s| == |raws|
  {
    seq(|raws|, i requires 0 <= i < |raws| => Fix(c.swapped, raws[i]))
  }

  ghost function RawRun(c: Config, k: Keyer, raws: seq<Keys>): Keyer {
    Run(c, k, Fixed(c, raws))
  }

  ghost function RawTrace(c: Config, k: Keyer, raws: seq<Keys>): (outs: seq<int>)
    ensures |outs| == |raws|
  {
    Trace(c, k, Fixed(c, raws))
  }

  lemma {:induction false} RawMore(c: Config, k: Keyer, raws: seq<Keys>, raw: Keys)
    ensures RawRun(c, k, raws + [raw]) == Next(c, RawRun(c, k, raws), Fix(c.swapped, raw), 1)
    ensures RawTrace(c, k, raws + [raw]) == RawTrace(c, k, raws) + [RawRun(c, k, raws + [raw]).keyOut]
  {
    assert Fixed(c, raws + [raw])[..|raws|] == Fixed(c, raws);
  }

  // ---- no element without its paddle ----

  function Sounds(p: Phase): int {
    if p.InDit? then DIT else if p.InDah? then DAH else OFF
  }

  /** A call begins a mark only for a paddle that is down or remembered, and remembers nothing else after it. */
  lemma StepBegins(c: Config, k: Keyer, raw: Keys, k': Keyer)
    requires k' == Next(c, k, Fix(c.swapped, raw), 1) && k.keyOut == Sounds(k.phase)
    ensures k'.keyOut == Sounds(k'.phase)
    ensures Begins(k.keyOut, k'.keyOut) ==> k'.mem == UP
    ensures var e := ElementOf(k'.keyOut);
      Begins(k.keyOut, k'.keyOut) ==> Has(k.mem, e) || Pressed(c.swapped, raw, e)
    ensures forall e: Element :: Has(k'.mem, e) ==> Has(k.mem, e) || Pressed(c.swapped, raw, e)
  {
  }

  /**
   Whatever the paddles do, swapped or not, and whatever the times: no mark begins unless the paddle for its element
   has been down since the call that began the mark before.
   */
  lemma {:induction false} EveryMarkIsAsked(c: Config, raws: seq<Keys>)
    ensures AllAsked(c.swapped, raws, RawTrace(c, AT_REST, raws), 0)
    ensures var k, outs := RawRun(c, AT_REST, raws), RawTrace(c, AT_REST, raws);
      Remembered(c.swapped, raws, outs, 0, k.mem) && k.keyOut == Sounds(k.phase) == FinalOutput(outs)
  {
    if raws != [] {
      var rest, raw := raws[..|raws| - 1], raws[|raws| - 1];
      assert raws == rest + [raw];
      EveryMarkIsAsked(c, rest);
      RawMore(c, AT_REST, rest, raw);
      var k, k' := RawRun(c, AT_REST, rest), RawRun(c, AT_REST, raws);
      StepBegins(c, k, raw, k');
      MemoryStep(c.swapped, rest, raw, RawTrace(c, AT_REST, rest), k'.keyOut, RawTrace(c, AT_REST, raws),
                 k.mem, k'.mem);
    }
  }

  /** From off, a paddle pressed alone starts its own element at that call. */
  lemma LonePressStarts(c: Config, k: Keyer, raw: Keys, ticks: int, e: Element)
    requires k.phase.Off? && k.duration <= ticks && Alone(c.swapped, raw, e)
    ensures Next(c, k, Fix(c.swapped, raw), ticks).keyOut == Code(e)
  {
  }

  // ---- no press without its element ----

  /** What the keyer remembers of the calls before a count-down runs out: exactly what was pressed. */
  lemma {:induction false} SeenIsPressed(c: Config, raws: seq<Keys>)
    ensures Seen(Fixed(c, raws)).dit <==> PressedIn(c.swapped, raws, Dit)
    ensures Seen(Fixed(c, raws)).dah <==> PressedIn(c.swapped, raws, Dah)
  {
    if raws != [] {
      var rest, raw := raws[..|raws| - 1], raws[|raws| - 1];
      assert raws == rest + [raw] && Fixed(c, raws)[..|rest|] == Fixed(c, rest);
      SeenIsPressed(c, rest);
      PressedInMore(c.swapped, rest, raw, Dit);
      PressedInMore(c.swapped, rest, raw, Dah);
    }
  }

  lemma FixedConcat(c: Config, a: seq<Keys>, b: seq<Keys>)
    ensures Fixed(c, a + b) == Fixed(c, a) + Fixed(c, b)
  {
  }

  /** What was pressed, of the other element, during a mark and the call that ended it counts afterwards. */
  ghost predicate MarkAsks(c: Config, during: seq<Keys>, ender: Keys, e: Element) {
    PressedIn(c.swapped, during + [ender], e) && !(c.mode == 'A' && !ender.dit && !ender.dah)
  }

  /** What follows a mark of e, by the paddles during it and the space after it. */
  ghost function Follower(c: Config, e: Element, during: seq<Keys>, ender: Keys, gap: seq<Keys>): int
    requires gap != []
  {
    if MarkAsks(c, during, ender, Other(e)) || PressedIn(c.swapped, gap, Other(e)) then Code(Other(e))
    else if Pressed(c.swapped, gap[|gap| - 1], e) then Code(e)
    else OFF
  }

  lemma {:induction false} MarkToSpace(c: Config, k: Keyer, e: Element, during: seq<Keys>, ender: Keys)
    requires Marking(k, e, |during| + 1) && k.mem == UP
    ensures var r := RawRun(c, k, during + [ender]);
      && r.keyOut == OFF && r.duration == c.ies && r.phase == (if e.Dit? then DitSpace else DahSpace)
      && (r.mem.dit <==> MarkAsks(c, during, ender, Dit)) && (r.mem.dah <==> MarkAsks(c, during, ender, Dah))
    ensures RawTrace(c, k, during + [ender]) == Constant(Code(e), |during|) + [OFF]
  {
    Holding(c, k, Fixed(c, during));
    SeenIsPressed(c, during);
    PressedInMore(c.swapped, during, ender, Dit);
    PressedInMore(c.swapped, during, ender, Dah);
    RawMore(c, k, during, ender);
  }

  lemma {:induction false} SpaceToFollower(c: Config, k: Keyer, e: Element, held: seq<Keys>, last: Keys)
    requires k.phase == (if e.Dit? then DitSpace else DahSpace) && k.keyOut == OFF && k.duration == |held| + 1
    ensures var r, other := RawRun(c, k, held + [last]), if e.Dit? then k.mem.dah else k.mem.dit;
      && r.keyOut == (if other || PressedIn(c.swapped, held + [last], Other(e)) then Code(Other(e))
                      else if Pressed(c.swapped, last, e) then Code(e) else OFF)
      && (r.keyOut == OFF ==> if c.autoIls then r.phase == SymbolSpace && r.duration == c.ils - c.ies && r.mem == UP
                              else r.phase == Off && r.duration <= 0)
    ensures RawTrace(c, k, held + [last]) == Constant(OFF, |held|) + [RawRun(c, k, held + [last]).keyOut]
  {
    Holding(c, k, Fixed(c, held));
    SeenIsPressed(c, held);
    PressedInMore(c.swapped, held, last, Dit);
    PressedInMore(c.swapped, held, last, Dah);
    RawMore(c, k, held, last);
  }

  /**
   Exactly what follows a mark: its space, and then the other element if it was asked for during the mark or the
   space (in mode A, not if both paddles were up at the call that ended the mark), or else the same one if its paddle
   is down at the last call of the space, or else nothing.
   */
  lemma AfterMark(c: Config, k: Keyer, e: Element, during: seq<Keys>, ender: Keys, held: seq<Keys>, last: Keys)
    requires Marking(k, e, |during| + 1) && k.mem == UP && |held| + 1 == c.ies
    ensures RawTrace(c, k, (during + [ender]) + (held + [last])) ==
      (Constant(Code(e), |during|) + [OFF]) + (Constant(OFF, |held|) + [Follower(c, e, during, ender, held + [last])])
  {
    MarkToSpace(c, k, e, during, ender);
    SpaceToFollower(c, RawRun(c, k, during + [ender]), e, held, last);
    FixedConcat(c, during + [ender], held + [last]);
    RunConcat(c, k, Fixed(c, during + [ender]), Fixed(c, held + [last]));
  }

  /**
   Exactly what ends a pause between letters or words: a dit if one was asked for in it, or else a dah, or else
   nothing.
   */
  lemma {:induction false} AfterPause(c: Config, k: Keyer, held: seq<Keys>, last: Keys)
    requires (k.phase.SymbolSpace? || k.phase.WordSpace?) && k.keyOut == OFF && k.mem == UP && k.duration == |held| + 1
    ensures RawTrace(c, k, held + [last]) == Constant(OFF, |held|) +
      [if PressedIn(c.swapped, held + [last], Dit) then DIT
       else if PressedIn(c.swapped, held + [last], Dah) then DAH else OFF]
    ensures var r := RawRun(c, k, held + [last]);
      r.keyOut == OFF ==> r.mem == UP && if c.autoIws && k.phase.SymbolSpace?
                                         then r.phase == WordSpace && r.duration == c.iws - c.ils
                                         else r.phase == Off && r.duration <= 0
  {
    Holding(c, k, Fixed(c, held));
    SeenIsPressed(c, held);
    PressedInMore(c.swapped, held, last, Dit);
    PressedInMore(c.swapped, held, last, Dah);
    RawMore(c, k, held, last);
  }
}
