/** dspmath/iambic_nd7pa.h: a keyer with two pending memories; its output follows its state by one call. */
module IambicNd7pa {
  import opened Morse
  import opened Keying
  import opened Paddles
  import opened Remainders

  datatype Phase = Idle | Mark(e: Element) | Delay(e: Element)

  datatype Config = Config(swapped: bool, times: Times)

  /** The output of the last call, the state, the count-down and the two pending memories. */
  datatype Keyer = Keyer(keyOut: int, phase: Phase, timer: int, pending: Keys)

  /** As the zero-filled and constructed object is. */
  const AT_REST := Keyer(OFF, Idle, 0, UP)

  function OutputIn(p: Phase): int {
    if p.Mark? then Code(p.e) else OFF
  }

  function IsOn(key: Keys, e: Element): bool {
    if e.Dit? then key.dit else key.dah
  }

  /** The state machine, before the memories are brought up to date. */
  function Moved(c: Config, k: Keyer, key: Keys): Keyer {
    match k.phase
    case Idle =>
      if key.dit then k.(timer := c.times.dit, phase := Mark(Dit))
      else if key.dah then k.(timer := c.times.dah, phase := Mark(Dah))
      else k
    case Mark(e) => if k.timer <= 0 then k.(timer := c.times.ies, phase := Delay(e)) else k
    case Delay(e) =>
      if k.timer > 0 then k
      else if IsOn(k.pending, Other(e)) then k.(timer := MarkTicks(c.times, Other(e)), phase := Mark(Other(e)))
      else k.(phase := Idle)
  }

  /** When a press of the other paddle is remembered: late in this element or early in the delay after it. */
  predicate Remembers(c: Config, k: Keyer, during: Element) {
    || (k.phase == Mark(during) && k.timer < if during.Dit? then Quotient(c.times.dit, 2) else Quotient(c.times.dah, 3))
    || (k.phase == Delay(during) && k.timer > Quotient(c.times.ies, 2))
  }

  function Pending(c: Config, k: Keyer, key: Keys, e: Element): bool {
    if IsOn(k.pending, e) then k.phase != Mark(e)
    else IsOn(key, e) && Remembers(c, k, Other(e))
  }

  function Next(c: Config, k: Keyer, raw: Keys, ticks: int): Keyer {
    var key := Fix(c.swapped, raw);
    var k1 := Moved(c, k.(keyOut := OutputIn(k.phase), timer := k.timer - ticks), key);
    k1.(pending := Keys(Pending(c, k1, key, Dit), Pending(c, k1, key, Dah)))
  }

  class Nd7pa {
    var swapped: bool
    var ticksPerDit: int
    var ticksPerDah: int
    var ticksPerIes: int
    var keyerState: Phase
    var timer: int
    var ditPending: bool
    var dahPending: bool

    ghost function Settings(): Config
      reads this
    {
      Config(swapped, Times(ticksPerDit, ticksPerDah, ticksPerIes))
    }

    ghost function Value(out: int): Keyer
      reads this
    {
      Keyer(out, keyerState, timer, Keys(ditPending, dahPending))
    }

    constructor (c: Config)
      ensures Settings() == c && Value(OFF) == AT_REST
    {
      swapped := c.swapped;
      ticksPerDit, ticksPerDah, ticksPerIes := c.times.dit, c.times.dah, c.times.ies;
      keyerState, timer, ditPending, dahPending := Idle, 0, false, false;
    }

    /** One call; `before` is the output of the call before. */
    method Clock(raw: Keys, ticks: int, ghost before: int) returns (out: int)
      modifies `keyerState, `timer, `ditPending, `dahPending
      ensures Value(out) == Next(Settings(), old(Value(before)), raw, ticks)
    {
      var ditOn := if swapped then raw.dah else raw.dit;
      var dahOn := if swapped then raw.dit else raw.dah;
      timer := timer - ticks;
      out := Move(ditOn, dahOn);
      Remember(ditOn, dahOn, out);
    }

    /** The two pending memories. */
    method Remember(ditOn: bool, dahOn: bool, ghost out: int)
      modifies `ditPending, `dahPending
      ensures var k, key := old(Value(out)), Keys(ditOn, dahOn);
        Value(out) == k.(pending := Keys(Pending(Settings(), k, key, Dit), Pending(Settings(), k, key, Dah)))
    {
      ditPending := if ditPending then keyerState != Mark(Dit)
                    else ditOn && ((keyerState == Mark(Dah) && timer < Quotient(ticksPerDah, 3)) ||
                                   (keyerState == Delay(Dah) && timer > Quotient(ticksPerIes, 2)));
      dahPending := if dahPending then keyerState != Mark(Dah)
                    else dahOn && ((keyerState == Mark(Dit) && timer < Quotient(ticksPerDit, 2)) ||
                                   (keyerState == Delay(Dit) && timer > Quotient(ticksPerIes, 2)));
    }

    method Move(ditOn: bool, dahOn: bool) returns (out: int)
      modifies `keyerState, `timer
      ensures out == OutputIn(old(keyerState))
      ensures Value(out) == Moved(Settings(), old(Value(OutputIn(keyerState))), Keys(ditOn, dahOn))
    {
      out := OFF;
      var expired := timer <= 0;
      match keyerState {
        case Idle =>
          if ditOn {
            timer, keyerState := ticksPerDit, Mark(Dit);
          } else if dahOn {
            timer, keyerState := ticksPerDah, Mark(Dah);
          }
        case Mark(e) =>
          out := if e.Dit? then DIT else DAH;
          if expired { timer, keyerState := ticksPerIes, Delay(e); }
        case Delay(Dit) =>
          if expired {
            if dahPending { timer, keyerState := ticksPerDah, Mark(Dah); } else { keyerState := Idle; }
          }
        case Delay(Dah) =>
          if expired {
            if ditPending { timer, keyerState := ticksPerDit, Mark(Dit); } else { keyerState := Idle; }
          }
      }
    }
  }

  // ---- runs, one tick a call ----

  ghost function Run(c: Config, k: Keyer, keys: seq<Keys>): Keyer {
    if keys == [] then k else Next(c, Run(c, k, keys[..|keys| - 1]), keys[|keys| - 1], 1)
  }

  ghost function Trace(c: Config, k: Keyer, keys: seq<Keys>): (outs: seq<int>)
    ensures |outs| == |keys|
  {
    if keys == [] then [] else Trace(c, k, keys[..|keys| - 1]) + [Run(c, k, keys).keyOut]
  }

  /** The output lags: in a mark, what has been heard is what the timer has counted off. */
  ghost predicate InStep(c: Config, k: Keyer, t: Tape) {
    match k.phase
    case Idle => Rested(c.times, t)
    case Mark(e) =>
      && 0 < k.timer <= MarkTicks(c.times, e)
      && if k.timer == MarkTicks(c.times, e) then Rested(c.times, t) else Sounding(c.times, t, e, k.timer + 1)
    case Delay(e) =>
      && 0 < k.timer <= c.times.ies && t.segs != [] && Last(t).mark == MarkTicks(c.times, Last(t).key)
      && Last(t).gap == c.times.ies - k.timer && (Last(t).gap == 0 ==> Last(t).key == e)
  }

  lemma StepInStep(c: Config, k: Keyer, raw: Keys, t: Tape)
    requires Positive(c.times) && InStep(c, k, t) && WellKeyed(c.times, t)
    ensures var k' := Next(c, k, raw, 1);
      IsOutput(k'.keyOut) && InStep(c, k', Extend(t, k'.keyOut)) && WellKeyed(c.times, Extend(t, k'.keyOut))
  {
    OutputInStep(c, k, t);
    var t' := Extend(t, OutputIn(k.phase));
    MoveInStep(c, k.(keyOut := OutputIn(k.phase), timer := k.timer - 1), Fix(c.swapped, raw), t');
  }

  /** The timer has counted a tick, and the output of the state it was in is on the tape. */
  ghost predicate Counted(c: Config, k: Keyer, t: Tape) {
    match k.phase
    case Idle => Rested(c.times, t)
    case Mark(e) => 0 <= k.timer < MarkTicks(c.times, e) && Sounding(c.times, t, e, k.timer + 1)
    case Delay(e) =>
      0 <= k.timer < c.times.ies && t.segs != [] && Last(t).mark == MarkTicks(c.times, Last(t).key)
      && Last(t).gap == c.times.ies - k.timer
  }

  lemma OutputInStep(c: Config, k: Keyer, t: Tape)
    requires Positive(c.times) && InStep(c, k, t) && WellKeyed(c.times, t)
    ensures var out := OutputIn(k.phase);
      && IsOutput(out) && WellKeyed(c.times, Extend(t, out))
      && Counted(c, k.(keyOut := out, timer := k.timer - 1), Extend(t, out))
  {
  }

  lemma MoveInStep(c: Config, k: Keyer, key: Keys, t: Tape)
    requires Positive(c.times) && Counted(c, k, t) && WellKeyed(c.times, t)
    ensures InStep(c, Moved(c, k, key), t)
  {
  }

  /** Whatever the paddles do, every mark is exact and no gap is too short. */
  lemma {:induction false} WellKeyedOutput(c: Config, keys: seq<Keys>)
    requires Positive(c.times)
    ensures Outputs(Trace(c, AT_REST, keys)) && WellKeyed(c.times, Measure(Trace(c, AT_REST, keys)))
    ensures InStep(c, Run(c, AT_REST, keys), Measure(Trace(c, AT_REST, keys)))
  {
    if keys != [] {
      var rest, outs := keys[..|keys| - 1], Trace(c, AT_REST, keys);
      WellKeyedOutput(c, rest);
      StepInStep(c, Run(c, AT_REST, rest), keys[|keys| - 1], Measure(Trace(c, AT_REST, rest)));
      assert outs[..|outs| - 1] == Trace(c, AT_REST, rest);
    }
  }

  // ---- both paddles held ----

  function Held(c: Config, n: nat): Keyer {
    if n == 0 then Next(c, AT_REST, BOTH, 1) else Next(c, Held(c, n - 1), BOTH, 1)
  }

  /** The output of the n-th call with both paddles held. */
  function HeldOutput(c: Config, n: nat): int {
    Held(c, n).keyOut
  }

  /** Where the keyer is at tick p of the squeezed waveform; in a delay the other element is pending. */
  ghost predicate HeldAt(c: Config, k: Keyer, p: int) {
    var t := c.times;
    if p < t.dit then k.phase == Mark(Dit) && k.timer == t.dit - p
    else if p < t.dit + t.ies then k.phase == Delay(Dit) && k.timer == t.dit + t.ies - p && k.pending.dah
    else if p < t.dit + t.ies + t.dah then k.phase == Mark(Dah) && k.timer == t.dit + t.ies + t.dah - p
    else k.phase == Delay(Dah) && k.timer == Period(t) - p && k.pending.dit
  }

  lemma {:induction false} HeldPhase(c: Config, n: nat)
    requires Positive(c.times)
    ensures HeldAt(c, Held(c, n), n % Period(c.times))
  {
    if n > 0 {
      HeldPhase(c, n - 1);
      NextPhase(n - 1, Period(c.times));
      HeldStep(c, Held(c, n - 1), (n - 1) % Period(c.times));
    } else {
      ModOf(0, 0, Period(c.times));
    }
  }

  lemma HeldStep(c: Config, k: Keyer, p: int)
    requires Positive(c.times) && 0 <= p < Period(c.times) && HeldAt(c, k, p)
    ensures HeldAt(c, Next(c, k, BOTH, 1), if p + 1 == Period(c.times) then 0 else p + 1)
  {
  }

  lemma StartsWithOff(c: Config)
    ensures HeldOutput(c, 0) == OFF
  {
  }

  /** The squeezed waveform, one call late. */
  lemma HeldIsSqueezed(c: Config, n: nat)
    requires Positive(c.times)
    ensures HeldOutput(c, n + 1) == Squeezed(c.times, n)
  {
    HeldPhase(c, n);
  }
}
