/**
 How exact the marks of dspmath/iambic_dttsp.h are.  An element that starts while a delay is running has its
 first tick counted by the very call that ends the delay, so its mark comes out one tick short.
 */
module DttspMarks {
  import opened Morse
  import opened Keying
  import opened Paddles
  import opened IambicDttsp

  /** Ticks that a mark may lack. */
  function Lack(c: Config): int {
    if c.autoChar then 1 else 0
  }

  predicate NearlyMark(c: Config, s: Segment) {
    Beep(c, s.key) - Lack(c) <= s.mark <= Beep(c, s.key)
  }

  function Space(c: Config): int {
    2 * c.ditlen - Beep(c, Dit)
  }

  /** Marks that have ended are whole or lack one tick; spaces that have ended are long enough. */
  ghost predicate NearlyKeyed(c: Config, t: Tape) {
    && (forall k :: 0 <= k < |t.segs| - 1 ==> NearlyMark(c, t.segs[k]) && Space(c) <= t.segs[k].gap)
    && (t.segs != [] ==>
      0 < Last(t).mark && if Last(t).gap == 0 then Last(t).mark <= Beep(c, Last(t).key) else NearlyMark(c, Last(t)))
  }

  /** At least so much silence, if anything was ever keyed. */
  ghost predicate Silent(c: Config, t: Tape, least: int) {
    t.segs != [] ==> 0 < Last(t).gap && least <= Last(t).gap
  }

  ghost predicate InMark(c: Config, k: Keyer, t: Tape, e: Element) {
    && t.segs != [] && Last(t).key == e && Last(t).gap == 0 && 0 < Last(t).mark
    && Beep(c, e) + 1 - Lack(c) <= Last(t).mark + k.beep <= Beep(c, e) + 1
  }

  /** Without automatic character spacing there is never a delay. */
  ghost predicate Undelayed(c: Config, k: Keyer) {
    !c.autoChar ==> k.dlay <= 0 && k.delay == NoDelay
  }

  ghost predicate InStep(c: Config, k: Keyer, t: Tape) {
    && Undelayed(c, k)
    && match k.curr
       case Nothing => k.beep <= 0 && k.elem <= 0 && Silent(c, t, Space(c))
       case Playing(e) =>
         if k.dlay > 0 then k.beep == Beep(c, e) && k.elem == Whole(c, e) && Silent(c, t, Space(c))
         else
           && 0 < k.elem && k.beep == AtLeastZero(k.elem - Space(c))
           && if k.beep > 0 then InMark(c, k, t, e) else Silent(c, t, Space(c) - k.elem + 1)
  }

  /** Nothing to play, or an element that has not begun. */
  ghost predicate Fresh(c: Config, k: Keyer) {
    && Undelayed(c, k)
    && match k.curr
       case Nothing => k.beep <= 0 && k.elem <= 0
       case Playing(e) => k.beep == Beep(c, e) && k.elem == Whole(c, e)
  }

  lemma ElementEnds(c: Config, k: Keyer, key: Keys, e: Element)
    requires Sensible(c) && InElement(k, e, k.beep, 1) && k.beep <= 0
    ensures Fresh(c, Next(c, k, key, 1))
  {
    var k1 := NoteSqueeze(CountDown(c, k, 1), key);
    assert k1.elem <= 0 && k1.beep <= 0 && k1.dlay <= 0 && k1.delay == NoDelay && k1.curr == Playing(e);
  }

  lemma NothingPlays(c: Config, k: Keyer, key: Keys)
    requires Sensible(c) && Fresh(c, k) && k.curr.Nothing?
    ensures Fresh(c, Next(c, k, key, 1))
  {
  }

  lemma ElementWaits(c: Config, k: Keyer, key: Keys)
    requires Sensible(c) && Fresh(c, k) && k.curr.Playing? && 1 < k.dlay
    ensures Fresh(c, Next(c, k, key, 1))
  {
  }

  /** The call that ends the delay already counts a tick of the element. */
  lemma DelayEnds(c: Config, k: Keyer, key: Keys)
    requires Sensible(c) && Fresh(c, k) && k.curr.Playing? && k.dlay == 1
    ensures InElement(Next(c, k, key, 1), k.curr.e, Beep(c, k.curr.e) - 1, Whole(c, k.curr.e) - 1)
  {
  }

  ghost predicate StaysInStep(c: Config, k: Keyer, t: Tape) {
    && IsOutput(Output(k))
    && InStep(c, k, Extend(t, Output(k))) && NearlyKeyed(c, Extend(t, Output(k)))
  }

  lemma FreshInStep(c: Config, k: Keyer, t: Tape)
    requires Sensible(c) && Fresh(c, k) && NearlyKeyed(c, t) && Silent(c, t, Space(c))
    ensures StaysInStep(c, k, t)
  {
  }

  lemma LateInStep(c: Config, k: Keyer, e: Element, t: Tape)
    requires Sensible(c) && c.autoChar && NearlyKeyed(c, t) && Silent(c, t, Space(c))
    requires InElement(k, e, Beep(c, e) - 1, Whole(c, e) - 1)
    ensures StaysInStep(c, k, t)
  {
  }

  lemma ElementInStep(c: Config, k: Keyer, k': Keyer, e: Element, t: Tape)
    requires Sensible(c) && InStep(c, k, t) && NearlyKeyed(c, t) && InElement(k, e, k.beep, k.elem) && 1 < k.elem
    requires InElement(k', e, k.beep - 1, k.elem - 1) && k'.delay == NoDelay
    ensures StaysInStep(c, k', t)
  {
  }

  lemma StepInStep(c: Config, k: Keyer, key: Keys, t: Tape)
    requires Sensible(c) && InStep(c, k, t) && NearlyKeyed(c, t)
    ensures StaysInStep(c, Next(c, k, key, 1), t)
  {
    var k' := Next(c, k, key, 1);
    if k.curr.Nothing? {
      NothingPlays(c, k, key);
      FreshInStep(c, k', t);
    } else if k.dlay > 1 {
      ElementWaits(c, k, key);
      FreshInStep(c, k', t);
    } else if k.dlay == 1 {
      DelayEnds(c, k, key);
      LateInStep(c, k', k.curr.e, t);
    } else if k.elem == 1 {
      ElementEnds(c, k, key, k.curr.e);
      FreshInStep(c, k', t);
    } else {
      StaysInElement(c, k, key, k.curr.e, k.beep, k.elem);
      ElementInStep(c, k, k', k.curr.e, t);
    }
  }

  /** Whatever the paddles do, marks are whole or one tick short, and spaces are long enough. */
  lemma {:induction false} NearlyKeyedOutput(c: Config, keys: seq<Keys>)
    requires Sensible(c)
    ensures Outputs(Trace(c, AT_REST, keys)) && NearlyKeyed(c, Measure(Trace(c, AT_REST, keys)))
    ensures InStep(c, Run(c, AT_REST, keys), Measure(Trace(c, AT_REST, keys)))
  {
    if keys != [] {
      var rest, outs := keys[..|keys| - 1], Trace(c, AT_REST, keys);
      NearlyKeyedOutput(c, rest);
      StepInStep(c, Run(c, AT_REST, rest), keys[|keys| - 1], Measure(Trace(c, AT_REST, rest)));
      assert outs[..|outs| - 1] == Trace(c, AT_REST, rest);
    }
  }

  ghost predicate AllExact(c: Config) {
    forall keys: seq<Keys> :: ExactFor(c, keys)
  }

  ghost predicate ExactFor(c: Config, keys: seq<Keys>) {
    Outputs(Trace(c, AT_REST, keys)) && WellKeyed(TimesOf(c), Measure(Trace(c, AT_REST, keys)))
  }

  // ---- a paddle let go, and pressed again in the delay ----

  const DAH_DOWN := Keys(false, true)

  /** A dah, the paddle up until the dah is over, and then down for n calls. */
  function PressedAgain(c: Config, n: nat): seq<Keys>
    requires Sensible(c)
  {
    [DAH_DOWN] + Same(UP, 4 * c.ditlen) + Same(DAH_DOWN, n)
  }

  ghost predicate LetGoAt(c: Config, k: Keyer, n: nat) {
    if n < 4 * c.ditlen
    then InElement(k, Dah, Beep(c, Dah) - n, 4 * c.ditlen - n) && k.iamb == NoSqueeze && !k.altrn
    else k.curr == Nothing && k.beep <= 0 && k.elem <= 0 && k.dlay == 2 * c.ditlen
  }

  lemma LetGoStep(c: Config, k: Keyer, n: nat)
    requires Sensible(c) && c.autoChar && n < 4 * c.ditlen && LetGoAt(c, k, n)
    ensures LetGoAt(c, Next(c, k, UP, 1), n + 1)
  {
  }

  lemma {:induction false} LetGo(c: Config, k: Keyer, n: nat)
    requires Sensible(c) && c.autoChar && n <= 4 * c.ditlen && LetGoAt(c, k, 0)
    ensures LetGoAt(c, Run(c, k, Same(UP, n)), n)
  {
    if n > 0 {
      LetGo(c, k, n - 1);
      RunSame(c, k, UP, n);
      LetGoStep(c, Run(c, k, Same(UP, n - 1)), n - 1);
    }
  }

  /** The dah waits for the delay, and its first tick is gone when it begins. */
  ghost predicate AgainAt(c: Config, k: Keyer, n: nat) {
    if n < 2 * c.ditlen
    then k.dlay == 2 * c.ditlen - n && k.elem == 4 * c.ditlen && k.beep == Beep(c, Dah) && k.curr == Playing(Dah)
    else InElement(k, Dah, Beep(c, Dah) - 1 - (n - 2 * c.ditlen), 6 * c.ditlen - 1 - n)
  }

  lemma {:induction false} Again(c: Config, k: Keyer, n: nat)
    requires Sensible(c) && LetGoAt(c, k, 4 * c.ditlen) && 0 < n < 6 * c.ditlen - 1
    ensures AgainAt(c, Run(c, k, Same(DAH_DOWN, n)), n)
  {
    RunSame(c, k, DAH_DOWN, n);
    if n == 1 {
      FirstAgain(c, k);
    } else {
      Again(c, k, n - 1);
      AgainStep(c, Run(c, k, Same(DAH_DOWN, n - 1)), n - 1);
    }
  }

  lemma FirstAgain(c: Config, k: Keyer)
    requires Sensible(c) && LetGoAt(c, k, 4 * c.ditlen)
    ensures AgainAt(c, Next(c, k, DAH_DOWN, 1), 1)
  {
  }

  lemma AgainStep(c: Config, k: Keyer, n: nat)
    requires Sensible(c) && AgainAt(c, k, n) && n < 6 * c.ditlen - 2
    ensures AgainAt(c, Next(c, k, DAH_DOWN, 1), n + 1)
  {
  }

  lemma PressedAgainState(c: Config, n: nat)
    requires Sensible(c) && c.autoChar && 0 < n < 6 * c.ditlen - 1
    ensures AgainAt(c, Run(c, AT_REST, PressedAgain(c, n)), n)
  {
    var first, up, again := [DAH_DOWN], Same(UP, 4 * c.ditlen), Same(DAH_DOWN, n);
    var k := Next(c, AT_REST, DAH_DOWN, 1);
    RunOne(c, AT_REST, DAH_DOWN);
    FirstDah(c);
    LetGo(c, k, 4 * c.ditlen);
    RunThrice(c, AT_REST, first, up, again, k, Run(c, k, up));
    Again(c, Run(c, k, up), n);
  }

  lemma RunOne(c: Config, k: Keyer, key: Keys)
    ensures Run(c, k, [key]) == Next(c, k, key, 1)
  {
    assert [key][..0] == [];
  }

  lemma FirstDah(c: Config)
    requires Sensible(c)
    ensures LetGoAt(c, Next(c, AT_REST, DAH_DOWN, 1), 0)
  {
  }

  lemma RunThrice(c: Config, k: Keyer, a: seq<Keys>, b: seq<Keys>, d: seq<Keys>, k1: Keyer, k2: Keyer)
    requires k1 == Run(c, k, a) && k2 == Run(c, k1, b)
    ensures Run(c, k, a + b + d) == Run(c, k2, d)
  {
    RunConcat(c, k, a, b);
    RunConcat(c, k, a + b, d);
  }

  /** The dah now on the tape has been heard for j ticks; for none if the key is still up. */
  ghost predicate DahHeard(c: Config, keys: seq<Keys>, j: nat) {
    && Outputs(Trace(c, AT_REST, keys))
    && DahOnTape(Measure(Trace(c, AT_REST, keys)), j)
  }

  ghost predicate DahOnTape(t: Tape, j: nat) {
    if j == 0 then t.segs == [] || 0 < Last(t).gap
    else t.segs != [] && Last(t).key == Dah && Last(t).mark == j && Last(t).gap == 0
  }

  lemma OneMoreTick(c: Config, keys: seq<Keys>, keys': seq<Keys>, out: int)
    requires Sensible(c) && keys' == keys + [DAH_DOWN] && out == Output(Run(c, AT_REST, keys'))
    ensures Outputs(Trace(c, AT_REST, keys)) && Outputs(Trace(c, AT_REST, keys')) && IsOutput(out)
    ensures Measure(Trace(c, AT_REST, keys')) == Extend(Measure(Trace(c, AT_REST, keys)), out)
  {
    NearlyKeyedOutput(c, keys);
    NearlyKeyedOutput(c, keys');
    var outs := Trace(c, AT_REST, keys');
    assert keys'[..|keys|] == keys;
    assert outs[..|outs| - 1] == Trace(c, AT_REST, keys);
    assert outs[|outs| - 1] == out;
  }

  lemma PressedAgainGrows(c: Config, n: nat)
    requires Sensible(c)
    ensures PressedAgain(c, n + 1) == PressedAgain(c, n) + [DAH_DOWN]
  {
    assert Same(DAH_DOWN, n + 1) == Same(DAH_DOWN, n) + [DAH_DOWN];
  }

  /** The key is still up at the last call of the delay. */
  lemma NotYet(c: Config, keys: seq<Keys>)
    requires Sensible(c) && AgainAt(c, Run(c, AT_REST, keys), 2 * c.ditlen - 1)
    ensures DahHeard(c, keys, 0)
  {
    NearlyKeyedOutput(c, keys);
  }

  /** The second dah has been heard for j ticks. */
  lemma {:induction false} SecondDah(c: Config, j: nat, n: nat, keys: seq<Keys>)
    requires Sensible(c) && c.autoChar && j < Beep(c, Dah) && n == 2 * c.ditlen + j - 1 && keys == PressedAgain(c, n)
    ensures DahHeard(c, keys, j)
  {
    PressedAgainState(c, n);
    if j == 0 {
      NotYet(c, keys);
    } else {
      var before := PressedAgain(c, n - 1);
      SecondDah(c, j - 1, n - 1, before);
      PressedAgainGrows(c, n - 1);
      OneMoreTick(c, before, keys, DAH);
    }
  }

  /** The second dah comes out one short. */
  lemma ShortMark(c: Config, n: nat, keys: seq<Keys>, before: seq<Keys>)
    requires Sensible(c) && c.autoChar && n == 2 * c.ditlen + Beep(c, Dah) - 1
    requires keys == PressedAgain(c, n) && before == PressedAgain(c, n - 1)
    ensures !ExactFor(c, keys)
  {
    SecondDah(c, Beep(c, Dah) - 1, n - 1, before);
    PressedAgainState(c, n);
    PressedAgainGrows(c, n - 1);
    DahEnds(c, before, keys);
  }

  lemma DahEnds(c: Config, keys: seq<Keys>, keys': seq<Keys>)
    requires Sensible(c) && keys' == keys + [DAH_DOWN]
    requires DahHeard(c, keys, Beep(c, Dah) - 1)
    requires AgainAt(c, Run(c, AT_REST, keys'), 2 * c.ditlen + Beep(c, Dah) - 1)
    ensures !ExactFor(c, keys')
  {
    OneMoreTick(c, keys, keys', OFF);
  }

  /** Marks are exact for every use of the paddles if and only if there is no automatic character spacing. */
  lemma ExactIffNoCharacterSpacing(c: Config)
    requires Sensible(c)
    ensures AllExact(c) <==> !c.autoChar
  {
    if c.autoChar {
      var n := 2 * c.ditlen + Beep(c, Dah) - 1;
      ShortMark(c, n, PressedAgain(c, n), PressedAgain(c, n - 1));
      assert !ExactFor(c, PressedAgain(c, n));
    } else {
      forall keys: seq<Keys> ensures ExactFor(c, keys) {
        NearlyKeyedOutput(c, keys);
        ExactWithoutDelay(c, Measure(Trace(c, AT_REST, keys)));
      }
    }
  }

  lemma ExactWithoutDelay(c: Config, t: Tape)
    requires Sensible(c) && !c.autoChar && NearlyKeyed(c, t)
    ensures WellKeyed(TimesOf(c), t)
  {
  }
}
