/** dspmath/iambic_k1el.h: a keyer whose call runs a loop of small states until one of them waits. */
module IambicK1el {
  import opened Morse
  import opened Keying
  import opened Paddles
  import opened Remainders

  datatype Phase = Idle | CheckDit | CheckDah | KeyedPrep | Keyed | InterElement

  datatype Config = Config(mode: char, swapped: bool, times: Times)

  datatype Keyer = Keyer(keyOut: int, duration: int, latch: Keys, ditProc: bool, phase: Phase)

  /** As the zero-filled and constructed object is. */
  const AT_REST := Keyer(OFF, 0, UP, false, Idle)

  function Latched(c: Config, k: Keyer, raw: Keys): Keyer {
    var key := Fix(c.swapped, raw);
    k.(latch := Keys(k.latch.dit || key.dit, k.latch.dah || key.dah))
  }

  function Begin(c: Config, k: Keyer, e: Element): Keyer {
    Keyer(Code(e), MarkTicks(c.times, e), UP, e.Dit? || k.ditProc, Keyed)
  }

  // what a call makes of each state it can be in

  function FromCheckDah(c: Config, k: Keyer): Keyer {
    if k.latch.dah then Begin(c, k, Dah) else k.(phase := Idle)
  }

  function FromCheckDit(c: Config, k: Keyer): Keyer {
    if k.latch.dit then Begin(c, k, Dit) else FromCheckDah(c, k)
  }

  function FromIdle(c: Config, k: Keyer, raw: Keys): Keyer {
    if raw != UP || k.latch != UP then FromCheckDit(c, Latched(c, k, raw)) else k
  }

  function FromKeyed(c: Config, k: Keyer, raw: Keys, ticks: int): Keyer {
    var left := k.duration - ticks;
    if left <= 0 then k.(keyOut := OFF, duration := c.times.ies, phase := InterElement)
    else if c.mode == 'B' then Latched(c, k, raw).(duration := left)
    else k.(duration := left)
  }

  function FromInterElement(c: Config, k: Keyer, raw: Keys, ticks: int): Keyer {
    var k1 := Latched(c, k, raw).(duration := k.duration - ticks);
    if k1.duration > 0 then k1
    else if k1.ditProc then FromCheckDah(c, k1.(latch := k1.latch.(dit := false), ditProc := false))
    else FromIdle(c, k1.(latch := k1.latch.(dah := false), phase := Idle), raw)
  }

  function Next(c: Config, k: Keyer, raw: Keys, ticks: int): Keyer {
    match k.phase
    case Idle => FromIdle(c, k, raw)
    case CheckDit => FromCheckDit(c, k)
    case CheckDah => FromCheckDah(c, k)
    case KeyedPrep => k.(latch := UP, phase := Keyed)
    case Keyed => FromKeyed(c, k, raw, ticks)
    case InterElement => FromInterElement(c, k, raw, ticks)
  }

  /** No state comes back within a call. */
  function Rank(p: Phase): nat {
    match p
    case InterElement => 5
    case Idle => 4
    case CheckDit => 3
    case CheckDah => 2
    case KeyedPrep => 1
    case Keyed => 0
  }

  class K1el {
    var mode: char
    var swapped: bool
    var ticksPerDit: int
    var ticksPerDah: int
    var ticksPerIes: int
    var keyOut: int
    var keyerDuration: int
    // the three bits of the control byte
    var latch: Keys
    var ditProc: bool
    var keyerState: Phase

    ghost function Settings(): Config
      reads this
    {
      Config(mode, swapped, Times(ticksPerDit, ticksPerDah, ticksPerIes))
    }

    ghost function Value(): Keyer
      reads this
    {
      Keyer(keyOut, keyerDuration, latch, ditProc, keyerState)
    }

    constructor (c: Config)
      ensures Settings() == c && Value() == AT_REST
    {
      mode, swapped := c.mode, c.swapped;
      ticksPerDit, ticksPerDah, ticksPerIes := c.times.dit, c.times.dah, c.times.ies;
      keyOut, keyerDuration, latch, ditProc, keyerState := OFF, 0, UP, false, Idle;
    }

    method UpdatePaddleLatch(raw: Keys)
      modifies `latch
      ensures Value() == Latched(Settings(), old(Value()), raw)
    {
      if swapped {
        if raw.dit { latch := latch.(dah := true); }
        if raw.dah { latch := latch.(dit := true); }
      } else {
        if raw.dit { latch := latch.(dit := true); }
        if raw.dah { latch := latch.(dah := true); }
      }
    }

    /** One call: the loop ends, and what it does is the flat step. */
    method Clock(raw: Keys, ticks: int) returns (out: int)
      modifies `keyOut, `keyerDuration, `latch, `ditProc, `keyerState
      ensures Value() == Next(Settings(), old(Value()), raw, ticks)
      ensures out == keyOut
    {
      ghost var c, goal := Settings(), Next(Settings(), Value(), raw, ticks);
      var done := false;
      while !done
        invariant Settings() == c
        invariant (if done then Value() else Next(c, Value(), raw, ticks)) == goal
        decreases !done, Rank(keyerState)
      {
        done := Turn(raw, ticks);
      }
      return keyOut;
    }

    /** One turn of the loop: through the switch once, to wait for the next call or to go round again. */
    method Turn(raw: Keys, ticks: int) returns (done: bool)
      modifies `keyOut, `keyerDuration, `latch, `ditProc, `keyerState
      ensures done ==> Value() == Next(Settings(), old(Value()), raw, ticks)
      ensures !done ==> Rank(keyerState) < old(Rank(keyerState))
      ensures !done ==> Next(Settings(), Value(), raw, ticks) == Next(Settings(), old(Value()), raw, ticks)
    {
      done := false;
      match keyerState {
        case Idle =>
          done := !(raw.dit || raw.dah || latch.dit || latch.dah);
          if !done {
            UpdatePaddleLatch(raw);
            keyerState := CheckDit;
          }
        case CheckDit =>
          if latch.dit {
            ditProc := true;
            keyerDuration := ticksPerDit;
            keyerState := KeyedPrep;
            keyOut := DIT;
          } else {
            keyerState := CheckDah;
          }
        case CheckDah =>
          if latch.dah {
            keyerDuration := ticksPerDah;
            keyerState := KeyedPrep;
            keyOut := DAH;
          } else {
            keyerState := Idle;
            done := true;
          }
        case KeyedPrep =>
          latch := UP;
          keyerState := Keyed;
          done := true;
        case Keyed =>
          keyerDuration := keyerDuration - ticks;
          done := true;
          if keyerDuration > 0 {
            if mode == 'B' { UpdatePaddleLatch(raw); }
          } else {
            keyOut := OFF;
            keyerDuration := ticksPerIes;
            keyerState := InterElement;
          }
        case InterElement => done := EndSpace(raw, ticks);
      }
    }

    /** A tick of the space between elements, latching the paddles meanwhile. */
    method EndSpace(raw: Keys, ticks: int) returns (done: bool)
      requires keyerState == InterElement
      modifies `keyerDuration, `latch, `ditProc, `keyerState
      ensures done ==> Value() == FromInterElement(Settings(), old(Value()), raw, ticks)
      ensures !done ==> keyerState in {CheckDah, Idle}
      ensures !done ==> Next(Settings(), Value(), raw, ticks) == FromInterElement(Settings(), old(Value()), raw, ticks)
    {
      UpdatePaddleLatch(raw);
      keyerDuration := keyerDuration - ticks;
      done := keyerDuration > 0;
      if !done {
        if ditProc {
          latch := latch.(dit := false);
          ditProc := false;
          keyerState := CheckDah;
        } else {
          latch := latch.(dah := false);
          keyerState := Idle;
        }
      }
    }
  }

  // ---- runs, one tick a call ----

  ghost function Run(c: Config, k: Keyer, keys: seq<Keys>): Keyer {
    if keys == [] then k else Next(c, Run(c, k, keys[..|keys| - 1]), keys[|keys| - 1], 1)
  }

  ghost function Trace(c: Config, k: Keyer, keys: seq<Keys>): (outs: seq<int>)
    ensures |outs| == |keys|
  {
    if keys == [] then [] else Trace(c, k, keys[..|keys| - 1]) + [Run(c, k, keys).keyOut]
  }

  /** Between calls the keyer waits in one of three states, and the count-down agrees with the stop-watch. */
  ghost predicate InStep(c: Config, k: Keyer, t: Tape) {
    match k.phase
    case Idle => k.keyOut == OFF && !k.ditProc && Rested(c.times, t)
    case Keyed => 0 < k.duration && k.keyOut != OFF && k.keyOut == Code(Sent(k)) &&
      Sounding(c.times, t, Sent(k), k.duration)
    case InterElement => k.keyOut == OFF && 0 < k.duration && Resting(c.times, t, k.duration)
    case _ => false
  }

  function Sent(k: Keyer): Element {
    if k.ditProc then Dit else Dah
  }

  lemma StepInStep(c: Config, k: Keyer, raw: Keys, t: Tape)
    requires Positive(c.times) && InStep(c, k, t) && WellKeyed(c.times, t)
    ensures var k' := Next(c, k, raw, 1);
      IsOutput(k'.keyOut) && StaysInStep(c, k', t)
  {
    match k.phase {
      case Idle => ChoiceInStep(c, Latched(c, k, raw), t);
      case Keyed => MarkInStep(c, k, raw, t);
      case InterElement => SpaceInStep(c, k, raw, t);
    }
  }

  ghost predicate StaysInStep(c: Config, k: Keyer, t: Tape)
    requires IsOutput(k.keyOut)
  {
    InStep(c, k, Extend(t, k.keyOut)) && WellKeyed(c.times, Extend(t, k.keyOut))
  }

  /** After a space: a new element, or idle. */
  lemma ChoiceInStep(c: Config, k: Keyer, t: Tape)
    requires Positive(c.times) && WellKeyed(c.times, t) && Rested(c.times, t) && k.keyOut == OFF && !k.ditProc
    ensures IsOutput(FromCheckDit(c, k).keyOut) && StaysInStep(c, FromCheckDit(c, k), t)
    ensures IsOutput(FromCheckDah(c, k).keyOut) && StaysInStep(c, FromCheckDah(c, k), t)
  {
    StartInStep(c, k, Dit, t);
    StartInStep(c, k, Dah, t);
    RestInStep(c, k.(phase := Idle), t);
  }

  lemma StartInStep(c: Config, k: Keyer, e: Element, t: Tape)
    requires Positive(c.times) && WellKeyed(c.times, t) && Rested(c.times, t) && !k.ditProc
    ensures IsOutput(Code(e)) && StaysInStep(c, Begin(c, k, e), t)
  {
  }

  lemma RestInStep(c: Config, k: Keyer, t: Tape)
    requires Positive(c.times) && WellKeyed(c.times, t) && Rested(c.times, t) && k.keyOut == OFF && !k.ditProc
    requires k.phase == Idle
    ensures IsOutput(OFF) && StaysInStep(c, k, t)
  {
  }

  lemma MarkInStep(c: Config, k: Keyer, raw: Keys, t: Tape)
    requires Positive(c.times) && InStep(c, k, t) && WellKeyed(c.times, t) && k.phase == Keyed
    ensures var k' := FromKeyed(c, k, raw, 1);
      IsOutput(k'.keyOut) && StaysInStep(c, k', t)
  {
  }

  lemma SpaceInStep(c: Config, k: Keyer, raw: Keys, t: Tape)
    requires Positive(c.times) && InStep(c, k, t) && WellKeyed(c.times, t) && k.phase == InterElement
    ensures var k' := FromInterElement(c, k, raw, 1);
      IsOutput(k'.keyOut) && StaysInStep(c, k', t)
  {
    var k1 := Latched(c, k, raw).(duration := k.duration - 1);
    if k1.duration <= 0 {
      var k2 := k1.(latch := k1.latch.(dit := false), ditProc := false);
      var k3 := k1.(latch := k1.latch.(dah := false), phase := Idle);
      ChoiceInStep(c, k2, t);
      if !k1.ditProc {
        ChoiceInStep(c, Latched(c, k3, raw), t);
        RestInStep(c, k3, t);
      }
    }
  }

  /** Whatever the paddles do, every mark is exact and no gap is too short. */
  lemma {:induction false} WellKeyedOutput(c: Config, keys: seq<Keys>)
    requires Positive(c.times)
    ensures Outputs(Trace(c, AT_REST, keys)) && WellKeyed(c.times, Measure(Trace(c, AT_REST, keys)))
    ensures InStep(c, Run(c, AT_REST, keys), Measure(Trace(c, AT_REST, keys)))
  {
    if keys != [] {
      var rest, outs := keys[..|keys| - 1], Trace(c, AT_REST, keys);
      WellKeyedOutput(c, rest);
      StepInStep(c, Run(c, AT_REST, rest), keys[|keys| - 1], Measure(Trace(c, AT_REST, rest)));
      assert outs[..|outs| - 1] == Trace(c, AT_REST, rest);
    }
  }

  // ---- both paddles held ----

  /** The n-th state with both paddles held since the keyer was at rest. */
  function Held(c: Config, n: nat): Keyer {
    if n == 0 then Next(c, AT_REST, BOTH, 1) else Next(c, Held(c, n - 1), BOTH, 1)
  }

  /** The output of the n-th call with both paddles held. */
  function HeldOutput(c: Config, n: nat): int {
    Held(c, n).keyOut
  }

  /** Where the keyer is at tick p of the squeezed waveform. */
  ghost predicate HeldAt(c: Config, k: Keyer, p: int) {
    var t := c.times;
    if p < t.dit then k.phase == Keyed && k.keyOut == DIT && k.ditProc && k.duration == t.dit - p
    else if p < t.dit + t.ies then k.phase == InterElement && k.keyOut == OFF && k.ditProc &&
      k.duration == t.dit + t.ies - p
    else if p < t.dit + t.ies + t.dah
    then k.phase == Keyed && k.keyOut == DAH && !k.ditProc && k.duration == t.dit + t.ies + t.dah - p
    else k.phase == InterElement && k.keyOut == OFF && !k.ditProc && k.duration == Period(t) - p
  }

  lemma {:induction false} HeldIsSqueezed(c: Config, n: nat)
    requires Positive(c.times)
    ensures HeldAt(c, Held(c, n), n % Period(c.times))
    ensures HeldOutput(c, n) == Squeezed(c.times, n)
  {
    if n > 0 {
      HeldIsSqueezed(c, n - 1);
      NextPhase(n - 1, Period(c.times));
    } else {
      ModOf(0, 0, Period(c.times));
    }
  }
}
