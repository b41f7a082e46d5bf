/**
 dspmath/iambic_k1el.h on the paddle levels as they come in: what each element was asked for by, and the two
 modes.
 */
module K1elPaddles {
  import opened Morse
  import opened Keying
  import opened Paddles
  import opened Asking
  import opened IambicK1el

  lemma {:induction false} RunMore(c: Config, k: Keyer, raws: seq<Keys>, raw: Keys)
    ensures Run(c, k, raws + [raw]) == Next(c, Run(c, k, raws), raw, 1)
    ensures Trace(c, k, raws + [raw]) == Trace(c, k, raws) + [Run(c, k, raws + [raw]).keyOut]
  {
    assert (raws + [raw])[..|raws|] == raws;
  }

  lemma {:induction false} RunConcat(c: Config, k: Keyer, a: seq<Keys>, b: seq<Keys>)
    ensures Run(c, k, a + b) == Run(c, Run(c, k, a), b)
    ensures Trace(c, k, a + b) == Trace(c, k, a) + Trace(c, Run(c, k, a), b)
  {
    if b == [] {
      assert a + b == a;
    } else {
      var n := |b| - 1;
      RunConcat(c, k, a, b[..n]);
      assert a + b == (a + b[..n]) + [b[n]];
      RunMore(c, k, a + b[..n], b[n]);
    }
  }

  // ---- no element without its paddle ----

  /** Between calls the key is down just in a mark. */
  predicate Waits(k: Keyer) {
    && IsOutput(k.keyOut) && (k.keyOut != OFF <==> k.phase.Keyed?)
    && (k.phase.Idle? || k.phase.Keyed? || k.phase.InterElement?)
  }

  lemma StepBegins(c: Config, k: Keyer, raw: Keys, k': Keyer)
    requires Waits(k) && k' == Next(c, k, raw, 1)
    ensures Waits(k')
    ensures Begins(k.keyOut, k'.keyOut) ==> k'.latch == UP
    ensures var e := ElementOf(k'.keyOut);
      Begins(k.keyOut, k'.keyOut) ==> Has(k.latch, e) || Pressed(c.swapped, raw, e)
    ensures forall e: Element :: Has(k'.latch, e) ==> Has(k.latch, e) || Pressed(c.swapped, raw, e)
  {
  }

  /**
   Whatever the paddles do, swapped or not, and whatever the times: no mark begins unless the paddle for its element
   has been down since the call that began the mark before.
   */
  lemma {:induction false} EveryMarkIsAsked(c: Config, raws: seq<Keys>)
    ensures AllAsked(c.swapped, raws, Trace(c, AT_REST, raws), 0)
    ensures var k, outs := Run(c, AT_REST, raws), Trace(c, AT_REST, raws);
      Remembered(c.swapped, raws, outs, 0, k.latch) && Waits(k) && k.keyOut == FinalOutput(outs)
  {
    if raws != [] {
      var rest, raw := raws[..|raws| - 1], raws[|raws| - 1];
      assert raws == rest + [raw];
      EveryMarkIsAsked(c, rest);
      RunMore(c, AT_REST, rest, raw);
      var k, k' := Run(c, AT_REST, rest), Run(c, AT_REST, raws);
      StepBegins(c, k, raw, k');
      MemoryStep(c.swapped, rest, raw, Trace(c, AT_REST, rest), k'.keyOut, Trace(c, AT_REST, raws), k.latch, k'.latch);
    }
  }

  /** Nothing sent, nothing asked for. */
  ghost predicate Clear(k: Keyer) {
    k.phase == Idle && k.latch == UP && k.keyOut == OFF && !k.ditProc
  }

  /** A mark of e has `left` calls to go, and nothing has been asked for since it began. */
  ghost predicate Marking(k: Keyer, e: Element, left: int) {
    k.phase == Keyed && k.latch == UP && k.keyOut == Code(e) && k.ditProc == e.Dit? && k.duration == left
  }

  /** What an idle call begins, by the paddles at that call: a dit before a dah, each for its own ticks. */
  lemma IdleCall(c: Config, k: Keyer, raw: Keys, ticks: int)
    requires Clear(k)
    ensures var k' := Next(c, k, raw, ticks);
      if Pressed(c.swapped, raw, Dit) then Marking(k', Dit, c.times.dit)
      else if Pressed(c.swapped, raw, Dah) then Marking(k', Dah, c.times.dah)
      else Clear(k')
  {
  }

  // ---- no press without its element ----

  /** During a mark only mode B looks at the paddles. */
  lemma {:induction false} MarkHolds(c: Config, k: Keyer, raws: seq<Keys>)
    requires k.phase == Keyed && k.latch == UP && |raws| < k.duration
    ensures var r := Run(c, k, raws);
      && r == k.(latch := r.latch, duration := k.duration - |raws|)
      && (r.latch.dit <==> c.mode == 'B' && PressedIn(c.swapped, raws, Dit))
      && (r.latch.dah <==> c.mode == 'B' && PressedIn(c.swapped, raws, Dah))
    ensures Trace(c, k, raws) == Constant(k.keyOut, |raws|)
  {
    if raws != [] {
      var rest, raw := raws[..|raws| - 1], raws[|raws| - 1];
      assert raws == rest + [raw];
      MarkHolds(c, k, rest);
      PressedInMore(c.swapped, rest, raw, Dit);
      PressedInMore(c.swapped, rest, raw, Dah);
      RunMore(c, k, rest, raw);
    }
  }

  /** The space after it looks at them in either mode. */
  lemma {:induction false} SpaceHolds(c: Config, k: Keyer, raws: seq<Keys>)
    requires k.phase == InterElement && k.keyOut == OFF && |raws| < k.duration
    ensures var r := Run(c, k, raws);
      && r == k.(latch := r.latch, duration := k.duration - |raws|)
      && (r.latch.dit <==> k.latch.dit || PressedIn(c.swapped, raws, Dit))
      && (r.latch.dah <==> k.latch.dah || PressedIn(c.swapped, raws, Dah))
    ensures Trace(c, k, raws) == Constant(OFF, |raws|)
  {
    if raws != [] {
      var rest, raw := raws[..|raws| - 1], raws[|raws| - 1];
      assert raws == rest + [raw];
      SpaceHolds(c, k, rest);
      PressedInMore(c.swapped, rest, raw, Dit);
      PressedInMore(c.swapped, rest, raw, Dah);
      RunMore(c, k, rest, raw);
    }
  }

  /** The call that ends a mark does not look at the paddles. */
  lemma {:induction false} MarkToSpace(c: Config, k: Keyer, e: Element, during: seq<Keys>, ender: Keys)
    requires Marking(k, e, |during| + 1)
    ensures var r := Run(c, k, during + [ender]);
      && r.phase == InterElement && r.keyOut == OFF && r.duration == c.times.ies && r.ditProc == e.Dit?
      && (r.latch.dit <==> c.mode == 'B' && PressedIn(c.swapped, during, Dit))
      && (r.latch.dah <==> c.mode == 'B' && PressedIn(c.swapped, during, Dah))
    ensures Trace(c, k, during + [ender]) == Constant(Code(e), |during|) + [OFF]
  {
    MarkHolds(c, k, during);
    RunMore(c, k, during, ender);
  }

  /** What follows a mark of e: nothing, or the mark of an element. */
  datatype Follower = Nothing | Mark(f: Element)

  /**
   The other element if it was asked for during the space, or in mode B during the mark; or else, after a dah, another
   if its paddle is down at the last call of the space.  After a dit another has to wait for the next call.
   */
  ghost function FollowerOf(c: Config, e: Element, during: seq<Keys>, gap: seq<Keys>): Follower
    requires gap != []
  {
    if PressedIn(c.swapped, gap, Other(e)) || (c.mode == 'B' && PressedIn(c.swapped, during, Other(e)))
    then Mark(Other(e))
    else if e.Dah? && Pressed(c.swapped, gap[|gap| - 1], Dah) then Mark(Dah)
    else Nothing
  }

  ghost predicate IsFollower(c: Config, k: Keyer, f: Follower) {
    match f
    case Nothing => Clear(k)
    case Mark(e) => Marking(k, e, MarkTicks(c.times, e))
  }

  lemma {:induction false} SpaceToFollower(c: Config, k: Keyer, e: Element, asked: bool, held: seq<Keys>, last: Keys)
    requires k.phase == InterElement && k.keyOut == OFF && k.ditProc == e.Dit? && k.duration == |held| + 1
    requires asked == Has(k.latch, Other(e))
    ensures var r, gap := Run(c, k, held + [last]), held + [last];
      IsFollower(c, r, if asked || PressedIn(c.swapped, gap, Other(e)) then Mark(Other(e))
                       else if e.Dah? && Pressed(c.swapped, last, Dah) then Mark(Dah) else Nothing)
    ensures Trace(c, k, held + [last]) == Constant(OFF, |held|) + [Run(c, k, held + [last]).keyOut]
  {
    SpaceHolds(c, k, held);
    PressedInMore(c.swapped, held, last, Dit);
    PressedInMore(c.swapped, held, last, Dah);
    RunMore(c, k, held, last);
  }

  /** Exactly what follows a mark, by the paddles during it and during the space after it. */
  lemma AfterMark(c: Config, k: Keyer, e: Element, during: seq<Keys>, ender: Keys, held: seq<Keys>, last: Keys)
    requires Marking(k, e, |during| + 1) && |held| + 1 == c.times.ies
    ensures var r, f := Run(c, k, (during + [ender]) + (held + [last])), FollowerOf(c, e, during, held + [last]);
      && IsFollower(c, r, f)
      && Trace(c, k, (during + [ender]) + (held + [last])) ==
        (Constant(Code(e), |during|) + [OFF]) + (Constant(OFF, |held|) + [if f.Mark? then Code(f.f) else OFF])
  {
    MarkToSpace(c, k, e, during, ender);
    var k1, asked := Run(c, k, during + [ender]), c.mode == 'B' && PressedIn(c.swapped, during, Other(e));
    SpaceToFollower(c, k1, e, asked, held, last);
    RunConcat(c, k, during + [ender], held + [last]);
  }

  // ---- the two modes ----

  function Released(n: nat): (s: seq<Keys>)
    ensures |s| == n && forall k :: 0 <= k < n ==> s[k] == UP
  {
    seq(n, _ => UP)
  }

  lemma {:induction false} ClearStaysSilent(c: Config, k: Keyer, n: nat)
    requires Clear(k)
    ensures Clear(Run(c, k, Released(n))) && Trace(c, k, Released(n)) == Constant(OFF, n)
  {
    if n > 0 {
      ClearStaysSilent(c, k, n - 1);
      assert Released(n) == Released(n - 1) + [UP];
      RunMore(c, k, Released(n - 1), UP);
    }
  }

  /**
   A mark that nothing is asked for in, or outside mode B whatever is asked for, is the last if nothing is
   afterwards.
   */
  lemma LastMark(c: Config, k: Keyer, e: Element, during: seq<Keys>, ender: Keys, n: nat)
    requires Positive(c.times) && Marking(k, e, |during| + 1)
    requires c.mode == 'B' ==> !PressedIn(c.swapped, during, Other(e))
    ensures Trace(c, k, (during + [ender]) + (Released(c.times.ies) + Released(n))) ==
      (Constant(Code(e), |during|) + [OFF]) + Constant(OFF, c.times.ies + n)
  {
    var held := Released(c.times.ies - 1);
    assert Released(c.times.ies) == held + [UP];
    AfterMark(c, k, e, during, ender, held, UP);
    var marked, gap := during + [ender], held + [UP];
    ClearStaysSilent(c, Run(c, k, marked + gap), n);
    RunConcat(c, k, marked + gap, Released(n));
    assert (marked + gap) + Released(n) == marked + (gap + Released(n));
    assert Constant(OFF, |held|) + [OFF] + Constant(OFF, n) == Constant(OFF, c.times.ies + n);
  }

  /** Outside mode B: whatever is pressed during a mark, no element ever follows if nothing is pressed after it. */
  lemma SqueezeOutsideModeB(c: Config, k: Keyer, e: Element, during: seq<Keys>, ender: Keys, n: nat)
    requires Positive(c.times) && c.mode != 'B' && Marking(k, e, |during| + 1)
    ensures Trace(c, k, (during + [ender]) + (Released(c.times.ies) + Released(n))) ==
      (Constant(Code(e), |during|) + [OFF]) + Constant(OFF, c.times.ies + n)
  {
    LastMark(c, k, e, during, ender, n);
  }

  /**
   Mode B: if the other paddle was down before the last call of the mark, exactly one opposite element, then
   nothing, ever.
   */
  lemma SqueezeInModeB(c: Config, k: Keyer, e: Element, during: seq<Keys>, ender: Keys, n: nat)
    requires Positive(c.times) && c.mode == 'B' && Marking(k, e, |during| + 1) && PressedIn(c.swapped, during, Other(e))
    ensures var o := Other(e);
      Trace(c, k, (during + [ender]) + Released(c.times.ies)
                  + (Released(MarkTicks(c.times, o)) + (Released(c.times.ies) + Released(n)))) ==
        (Constant(Code(e), |during|) + [OFF]) + (Constant(OFF, c.times.ies - 1) + [Code(o)])
        + ((Constant(Code(o), MarkTicks(c.times, o) - 1) + [OFF]) + Constant(OFF, c.times.ies + n))
  {
    var o, held := Other(e), Released(c.times.ies - 1);
    var m := MarkTicks(c.times, o);
    assert Released(c.times.ies) == held + [UP] && Released(m) == Released(m - 1) + [UP];
    AfterMark(c, k, e, during, ender, held, UP);
    var first := (during + [ender]) + Released(c.times.ies);
    NothingPressed(c, m - 1, e);
    LastMark(c, Run(c, k, first), o, Released(m - 1), UP, n);
    RunConcat(c, k, first, Released(m) + (Released(c.times.ies) + Released(n)));
  }

  lemma NothingPressed(c: Config, n: nat, e: Element)
    ensures !PressedIn(c.swapped, Released(n), e)
  {
  }
}
