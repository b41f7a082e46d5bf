/** dspmath/iambic_ad5dz.h: the keyer as a state machine clocked with the paddle levels. */
module IambicAd5dz {
  import opened Morse
  import opened Keying
  import opened Paddles

  datatype Phase = Off | InDit | DitSpace | InDah | DahSpace | SymbolSpace | WordSpace

  datatype Config = Config(mode: char, swapped: bool, autoIls: bool, autoIws: bool,
                           dit: int, dah: int, ies: int, ils: int, iws: int)

  datatype Keyer = Keyer(keyOut: int, key: Keys, mem: Keys, phase: Phase, duration: int)

  /** All off, as the zero-filled and constructed object is. */
  const AT_REST := Keyer(OFF, UP, UP, Off, 0)

  function Both(a: Keys, b: Keys): Keys {
    Keys(a.dit || b.dit, a.dah || b.dah)
  }

  function ElementTicks(c: Config, e: Element): int {
    if e.Dit? then c.dit else c.dah
  }

  /** Is this element asked for, now or since the memory was cleared? */
  predicate Wanted(k: Keyer, e: Element) {
    if e.Dit? then k.key.dit || k.mem.dit else k.key.dah || k.mem.dah
  }

  function Begin(c: Config, k: Keyer, e: Element): Keyer {
    Keyer(Code(e), k.key, UP, if e.Dit? then InDit else InDah, k.duration + ElementTicks(c, e))
  }

  /** The element that comes next, the preferred one first. */
  function Choice(k: Keyer, first: Element): seq<Element> {
    if Wanted(k, first) then [first] else if Wanted(k, Other(first)) then [Other(first)] else []
  }

  function Wait(k: Keyer, phase: Phase, ticks: int): Keyer {
    k.(phase := phase, duration := k.duration + ticks)
  }

  function EndMark(c: Config, k: Keyer, space: Phase): Keyer {
    Wait(k, space, c.ies).(keyOut := OFF, mem := if k.key == UP && c.mode == 'A' then UP else k.mem)
  }

  /** After an element's space: the memory of the same element no longer counts. */
  function AfterSpace(c: Config, k: Keyer, sent: Element): Keyer {
    var k1 := k.(mem := if sent.Dit? then k.mem.(dit := false) else k.mem.(dah := false));
    var next := Choice(k1, Other(sent));
    if next != [] then Begin(c, k1, next[0])
    else if c.autoIls then Wait(k1, SymbolSpace, c.ils - c.ies).(mem := UP)
    else Wait(k1, Off, 0)
  }

  function Advance(c: Config, k: Keyer): Keyer {
    match k.phase
    case Off =>
      var k1 := k.(duration := 0, mem := UP);
      var next := Choice(k1, Dit);
      if next != [] then Begin(c, k1, next[0]) else k1
    case InDit => EndMark(c, k, DitSpace)
    case InDah => EndMark(c, k, DahSpace)
    case DitSpace => AfterSpace(c, k, Dit)
    case DahSpace => AfterSpace(c, k, Dah)
    case SymbolSpace =>
      var next := Choice(k, Dit);
      if next != [] then Begin(c, k, next[0])
      else if c.autoIws then Wait(k, WordSpace, c.iws - c.ils)
      else Wait(k, Off, 0)
    case WordSpace =>
      var next := Choice(k, Dit);
      if next != [] then Begin(c, k, next[0]) else Wait(k, Off, 0)
  }

  function Next(c: Config, k: Keyer, key: Keys, ticks: int): Keyer {
    var k1 := k.(key := key, mem := Both(k.mem, key), duration := k.duration - ticks);
    if k1.duration > 0 then k1 else Advance(c, k1)
  }

  class Ad5dz {
    const c: Config
    var keyOut: int
    var key: Keys
    var memKey: Keys
    var keyerState: Phase
    var keyerDuration: int

    ghost function Value(): Keyer
      reads this
    {
      Keyer(keyOut, key, memKey, keyerState, keyerDuration)
    }

    constructor (c: Config)
      ensures this.c == c && Value() == AT_REST
    {
      this.c := c;
      keyOut, key, memKey, keyerState, keyerDuration := OFF, UP, UP, Off, 0;
    }

    method TransitionTo(newState: Phase, newDuration: int)
      modifies `keyOut, `memKey, `keyerState, `keyerDuration
      ensures keyerState == newState && keyerDuration == old(keyerDuration) + newDuration
      ensures keyOut == if newState.InDit? then DIT else if newState.InDah? then DAH
                        else if newState.DitSpace? || newState.DahSpace? then OFF else old(keyOut)
      ensures memKey == if newState.InDit? || newState.InDah? || newState.SymbolSpace? then UP
                        else if (newState.DitSpace? || newState.DahSpace?) && key == UP && c.mode == 'A' then UP
                        else old(memKey)
    {
      match newState {
        case Off =>
        case InDit => keyOut := DIT; memKey := UP;
        case InDah => keyOut := DAH; memKey := UP;
        case DitSpace | DahSpace =>
          keyOut := OFF;
          if key == UP && c.mode == 'A' { memKey := UP; }
        case SymbolSpace => memKey := UP;
        case WordSpace =>
      }
      keyerState := newState;
      keyerDuration := keyerDuration + newDuration;
    }

    method StartDit() returns (done: bool)
      modifies `keyOut, `memKey, `keyerState, `keyerDuration
      ensures done == Wanted(old(Value()), Dit)
      ensures Value() == if done then Begin(c, old(Value()), Dit) else old(Value())
    {
      done := key.dit || memKey.dit;
      if done { TransitionTo(InDit, c.dit); }
    }

    method StartDah() returns (done: bool)
      modifies `keyOut, `memKey, `keyerState, `keyerDuration
      ensures done == Wanted(old(Value()), Dah)
      ensures Value() == if done then Begin(c, old(Value()), Dah) else old(Value())
    {
      done := key.dah || memKey.dah;
      if done { TransitionTo(InDah, c.dah); }
    }

    method Finish()
      modifies `keyOut, `memKey, `keyerState, `keyerDuration
      ensures Value() == Wait(old(Value()), Off, 0)
    {
      TransitionTo(Off, 0);
    }

    /** Start the preferred element, or else the other one. */
    method StartEither(first: Element) returns (done: bool)
      modifies `keyOut, `memKey, `keyerState, `keyerDuration
      ensures done == (Choice(old(Value()), first) != [])
      ensures Value() == if done then Begin(c, old(Value()), Choice(old(Value()), first)[0]) else old(Value())
    {
      if first.Dit? {
        done := StartDit();
        if !done { done := StartDah(); }
      } else {
        done := StartDah();
        if !done { done := StartDit(); }
      }
    }

    method Clock(raw: Keys, ticks: int) returns (out: int)
      modifies this
      ensures Value() == Next(c, old(Value()), Fix(c.swapped, raw), ticks)
      ensures out == keyOut
    {
      key := if c.swapped then Keys(raw.dah, raw.dit) else raw;
      memKey := Keys(memKey.dit || key.dit, memKey.dah || key.dah);
      keyerDuration := keyerDuration - ticks;
      ghost var k := old(Value());
      assert Value() == k.(key := key, mem := Both(k.mem, key), duration := k.duration - ticks);
      if keyerDuration <= 0 { Expire(); }
      return keyOut;
    }

    /** The switch on the state, once the duration has run out. */
    method Expire()
      modifies `keyOut, `memKey, `keyerState, `keyerDuration
      ensures Value() == Advance(c, old(Value()))
    {
      var done := true;
      match keyerState {
        case Off =>
          keyerDuration := 0;
          memKey := UP;
          done := StartEither(Dit);
        case InDit => TransitionTo(DitSpace, c.ies);
        case InDah => TransitionTo(DahSpace, c.ies);
        case DitSpace => EndSpace(Dit);
        case DahSpace => EndSpace(Dah);
        case SymbolSpace =>
          done := StartEither(Dit);
          if !done {
            if c.autoIws { TransitionTo(WordSpace, c.iws - c.ils); } else { Finish(); }
          }
        case WordSpace =>
          done := StartEither(Dit);
          if !done { Finish(); }
      }
    }

    method EndSpace(sent: Element)
      modifies `keyOut, `memKey, `keyerState, `keyerDuration
      ensures Value() == AfterSpace(c, old(Value()), sent)
    {
      var done;
      if sent.Dit? {
        memKey := memKey.(dit := false);
        done := StartEither(Dah);
      } else {
        memKey := memKey.(dah := false);
        done := StartEither(Dit);
      }
      if !done { LetterSpace(); }
    }

    method LetterSpace()
      modifies `keyOut, `memKey, `keyerState, `keyerDuration
      ensures Value() == if c.autoIls then Wait(old(Value()), SymbolSpace, c.ils - c.ies).(mem := UP)
                         else Wait(old(Value()), Off, 0)
    {
      if c.autoIls { TransitionTo(SymbolSpace, c.ils - c.ies); } else { Finish(); }
    }
  }

  // ---- runs, one tick a call ----

  ghost function Run(c: Config, k: Keyer, keys: seq<Keys>): Keyer {
    if keys == [] then k else Next(c, Run(c, k, keys[..|keys| - 1]), keys[|keys| - 1], 1)
  }

  ghost function Trace(c: Config, k: Keyer, keys: seq<Keys>): (outs: seq<int>)
    ensures |outs| == |keys|
  {
    if keys == [] then [] else Trace(c, k, keys[..|keys| - 1]) + [Run(c, k, keys).keyOut]
  }

  /** Positive times, each space longer than the one before, and both automatic spaces on. */
  predicate Spaced(c: Config) {
    0 < c.dit && 0 < c.dah && 0 < c.ies < c.ils < c.iws && c.autoIls && c.autoIws
  }

  predicate GoodMark(c: Config, s: Segment) {
    s.mark == ElementTicks(c, s.key)
  }

  predicate GoodGap(c: Config, g: nat) {
    g == c.ies || g == c.ils || c.iws <= g
  }

  /** Every mark that has ended lasted its ticks, every gap that has ended is one of the three. */
  ghost predicate WellTimed(c: Config, t: Tape) {
    && (forall k :: 0 <= k < |t.segs| - 1 ==> GoodMark(c, t.segs[k]) && GoodGap(c, t.segs[k].gap))
    && (t.segs != [] ==>
        if Last(t).gap == 0 then 0 < Last(t).mark <= ElementTicks(c, Last(t).key) else GoodMark(c, Last(t)))
  }

  /** Where the keyer's count-down stands against the stop-watch. */
  ghost predicate InStep(c: Config, k: Keyer, t: Tape) {
    && (k.phase.Off? ==> k.duration <= 0 && k.keyOut == OFF && (t.segs != [] ==> c.iws <= Last(t).gap))
    && (!k.phase.Off? ==> 0 < k.duration && t.segs != [])
    && (k.phase.InDit? ==> OnMark(c, k, Last(t), Dit))
    && (k.phase.InDah? ==> OnMark(c, k, Last(t), Dah))
    && (k.phase.DitSpace? || k.phase.DahSpace? ==> InGap(k, Last(t), c.ies, c.ies))
    && (k.phase.SymbolSpace? ==> InGap(k, Last(t), c.ils, c.ils - c.ies))
    && (k.phase.WordSpace? ==> InGap(k, Last(t), c.iws, c.iws - c.ils))
  }

  ghost predicate OnMark(c: Config, k: Keyer, s: Segment, e: Element) {
    k.keyOut == Code(e) && s.key == e && s.gap == 0 && s.mark == ElementTicks(c, e) - k.duration + 1
  }

  ghost predicate InGap(k: Keyer, s: Segment, total: int, part: int) {
    k.keyOut == OFF && k.duration <= part && s.gap == total - k.duration + 1
  }

  lemma StepInStep(c: Config, k: Keyer, key: Keys, t: Tape)
    requires Spaced(c) && InStep(c, k, t) && WellTimed(c, t)
    ensures IsOutput(Next(c, k, key, 1).keyOut) && StaysInStep(c, Next(c, k, key, 1), t)
  {
    var k1 := k.(key := key, mem := Both(k.mem, key), duration := k.duration - 1);
    if k1.duration > 0 {
      CountInStep(c, k1, t);
    } else if k.phase.InDit? || k.phase.InDah? {
      MarkEndsInStep(c, k1, t);
    } else if k.phase.DitSpace? || k.phase.DahSpace? {
      SpaceEndsInStep(c, k1, t);
    } else {
      PauseEndsInStep(c, k1, t);
    }
  }

  ghost predicate StaysInStep(c: Config, k: Keyer, t: Tape)
    requires IsOutput(k.keyOut)
  {
    InStep(c, k, Extend(t, k.keyOut)) && WellTimed(c, Extend(t, k.keyOut))
  }

  /** Where the keyer stands before a tick that it has already counted. */
  ghost predicate Counted(c: Config, k: Keyer, t: Tape) {
    Spaced(c) && InStep(c, k.(duration := k.duration + 1), t) && WellTimed(c, t)
  }

  lemma CountInStep(c: Config, k: Keyer, t: Tape)
    requires Counted(c, k, t) && k.duration > 0
    ensures IsOutput(k.keyOut) && StaysInStep(c, k, t)
  {
  }

  lemma MarkEndsInStep(c: Config, k: Keyer, t: Tape)
    requires Counted(c, k, t) && k.duration <= 0 && (k.phase.InDit? || k.phase.InDah?)
    ensures IsOutput(Advance(c, k).keyOut) && StaysInStep(c, Advance(c, k), t)
  {
  }

  lemma SpaceEndsInStep(c: Config, k: Keyer, t: Tape)
    requires Counted(c, k, t) && k.duration <= 0 && (k.phase.DitSpace? || k.phase.DahSpace?)
    ensures IsOutput(Advance(c, k).keyOut) && StaysInStep(c, Advance(c, k), t)
  {
  }

  lemma PauseEndsInStep(c: Config, k: Keyer, t: Tape)
    requires Counted(c, k, t) && k.duration <= 0 && (k.phase.Off? || k.phase.SymbolSpace? || k.phase.WordSpace?)
    ensures IsOutput(Advance(c, k).keyOut) && StaysInStep(c, Advance(c, k), t)
  {
  }

  lemma {:induction false} RunInStep(c: Config, keys: seq<Keys>)
    requires Spaced(c)
    ensures Outputs(Trace(c, AT_REST, keys))
    ensures InStep(c, Run(c, AT_REST, keys), Measure(Trace(c, AT_REST, keys)))
    ensures WellTimed(c, Measure(Trace(c, AT_REST, keys)))
  {
    if keys != [] {
      var rest := keys[..|keys| - 1];
      RunInStep(c, rest);
      StepInStep(c, Run(c, AT_REST, rest), keys[|keys| - 1], Measure(Trace(c, AT_REST, rest)));
      var outs := Trace(c, AT_REST, keys);
      assert outs[..|outs| - 1] == Trace(c, AT_REST, rest);
    }
  }

  /** Whatever the paddles do, the output is made of exact marks and quantised gaps. */
  lemma WellFormedOutput(c: Config, keys: seq<Keys>)
    requires Spaced(c)
    ensures Outputs(Trace(c, AT_REST, keys)) && WellTimed(c, Measure(Trace(c, AT_REST, keys)))
    ensures Separated(Measure(Trace(c, AT_REST, keys)))
  {
    RunInStep(c, keys);
  }

  // ---- squeezes: mode A against mode B ----

  function Seen(keys: seq<Keys>): Keys {
    if keys == [] then UP else Both(Seen(keys[..|keys| - 1]), keys[|keys| - 1])
  }

  function Released(n: nat): (s: seq<Keys>)
    ensures |s| == n && forall k :: 0 <= k < n ==> s[k] == UP
  {
    seq(n, _ => UP)
  }

  lemma {:induction false} RunConcat(c: Config, k: Keyer, a: seq<Keys>, b: seq<Keys>)
    ensures Run(c, k, a + b) == Run(c, Run(c, k, a), b)
    ensures Trace(c, k, a + b) == Trace(c, k, a) + Trace(c, Run(c, k, a), b)
  {
    if b == [] {
      assert a + b == a;
    } else {
      assert (a + b)[..|a + b| - 1] == a + b[..|b| - 1];
      RunConcat(c, k, a, b[..|b| - 1]);
    }
  }

  lemma RunOne(c: Config, k: Keyer, key: Keys)
    ensures Run(c, k, [key]) == Next(c, k, key, 1) && Trace(c, k, [key]) == [Next(c, k, key, 1).keyOut]
  {
    assert [key][..0] == [];
  }

  /** Until the duration runs out the keyer only remembers what the paddles do. */
  lemma {:induction false} Holding(c: Config, k: Keyer, keys: seq<Keys>)
    requires |keys| < k.duration
    ensures var r := Run(c, k, keys);
      && r == k.(key := r.key, mem := Both(k.mem, Seen(keys)), duration := k.duration - |keys|)
    ensures Trace(c, k, keys) == Constant(k.keyOut, |keys|)
  {
    if keys != [] {
      Holding(c, k, keys[..|keys| - 1]);
    }
  }

  lemma {:induction false} SeenSqueeze(keys: seq<Keys>)
    ensures BOTH in keys ==> Seen(keys) == BOTH
    ensures (forall k :: 0 <= k < |keys| ==> keys[k] == UP) ==> Seen(keys) == UP
  {
    if keys != [] {
      SeenSqueeze(keys[..|keys| - 1]);
    }
  }

  /** Nothing is asked for and nothing remembered that could start an element. */
  ghost predicate Spent(k: Keyer) {
    && k.keyOut == OFF && !k.phase.InDit? && !k.phase.InDah?
    && (k.mem.dit ==> k.phase.DitSpace?) && (k.mem.dah ==> k.phase.DahSpace?)
  }

  lemma {:induction false} SpentStaysSilent(c: Config, k: Keyer, n: nat)
    requires Spent(k)
    ensures Spent(Run(c, k, Released(n))) && Trace(c, k, Released(n)) == Constant(OFF, n)
  {
    if n > 0 {
      assert Released(n)[..n - 1] == Released(n - 1);
      SpentStaysSilent(c, k, n - 1);
    }
  }

  /** Keying element e, with `left` calls until its mark ends. */
  ghost predicate Marking(k: Keyer, e: Element, left: int) {
    k.phase == (if e.Dit? then InDit else InDah) && k.keyOut == Code(e) && k.duration == left
  }

  /** A mark runs to its end under any paddles, and the call that ends it finds them released. */
  lemma MarkEnds(c: Config, k: Keyer, e: Element, keys: seq<Keys>)
    requires Marking(k, e, |keys| + 1)
    ensures var r := Run(c, k, keys + [UP]);
      && r.keyOut == OFF && r.duration == c.ies && r.key == UP
      && r.phase == (if e.Dit? then DitSpace else DahSpace)
      && r.mem == if c.mode == 'A' then UP else Both(k.mem, Seen(keys))
    ensures Trace(c, k, keys + [UP]) == Constant(Code(e), |keys|) + [OFF]
  {
    Holding(c, k, keys);
    RunConcat(c, k, keys, [UP]);
    RunOne(c, Run(c, k, keys), UP);
  }

  /**
   Mode A: whatever is pressed during a mark, a squeeze too, no element follows, ever, if it is let go before the
   mark ends.
   */
  lemma SqueezeInModeA(c: Config, k: Keyer, e: Element, keys: seq<Keys>, n: nat)
    requires c.mode == 'A' && Marking(k, e, |keys| + 1)
    ensures Trace(c, k, keys + [UP] + Released(n)) == Constant(Code(e), |keys|) + Constant(OFF, n + 1)
  {
    MarkEnds(c, k, e, keys);
    RunConcat(c, k, keys + [UP], Released(n));
    SpentStaysSilent(c, Run(c, k, keys + [UP]), n);
    assert [OFF] + Constant(OFF, n) == Constant(OFF, n + 1);
  }

  /** Mode B: the same squeeze is answered with exactly one opposite element, then nothing, ever. */
  lemma SqueezeInModeB(c: Config, k: Keyer, e: Element, keys: seq<Keys>, n: nat)
    requires c.mode != 'A' && 0 < c.dit && 0 < c.dah && 0 < c.ies
    requires Marking(k, e, |keys| + 1) && BOTH in keys
    ensures Trace(c, k, keys + [UP] + (Released(c.ies) + (Released(ElementTicks(c, Other(e))) + Released(n)))) ==
      (Constant(Code(e), |keys|) + [OFF]) +
        ((Constant(OFF, c.ies - 1) + [Code(Other(e))]) +
          ((Constant(Code(Other(e)), ElementTicks(c, Other(e)) - 1) + [OFF]) + Constant(OFF, n)))
  {
    var m := ElementTicks(c, Other(e));
    SeenSqueeze(keys);
    MarkEnds(c, k, e, keys);
    var k1 := Run(c, k, keys + [UP]);
    OppositeStarts(c, k1, e);
    var k2 := Run(c, k1, Released(c.ies));
    assert Released(m) == Released(m - 1) + [UP];
    SeenSqueeze(Released(m - 1));
    MarkEnds(c, k2, Other(e), Released(m - 1));
    var k3 := Run(c, k2, Released(m));
    SpentStaysSilent(c, k3, n);
    RunConcat(c, k2, Released(m), Released(n));
    RunConcat(c, k1, Released(c.ies), Released(m) + Released(n));
    RunConcat(c, k, keys + [UP], Released(c.ies) + (Released(m) + Released(n)));
  }

  lemma OppositeStarts(c: Config, k: Keyer, e: Element)
    requires k.keyOut == OFF && k.duration == c.ies && 0 < c.ies && k.mem == BOTH
    requires k.phase == if e.Dit? then DitSpace else DahSpace
    ensures var r := Run(c, k, Released(c.ies));
      Marking(r, Other(e), ElementTicks(c, Other(e))) && r.mem == UP
    ensures Trace(c, k, Released(c.ies)) == Constant(OFF, c.ies - 1) + [Code(Other(e))]
  {
    assert Released(c.ies) == Released(c.ies - 1) + [UP];
    Holding(c, k, Released(c.ies - 1));
    RunConcat(c, k, Released(c.ies - 1), [UP]);
    RunOne(c, Run(c, k, Released(c.ies - 1)), UP);
  }

  // ---- no drift, any ticks ----

  datatype Call = Call(key: Keys, ticks: int)

  /** The keyer with the time, when it last left Off, and the sum of durations entered since. */
  datatype Clocked = Clocked(k: Keyer, now: int, start: int, due: int)

  /** How long each phase is meant to last. */
  function Nominal(c: Config, phase: Phase): int {
    match phase
    case Off => 0
    case InDit => c.dit
    case InDah => c.dah
    case DitSpace | DahSpace => c.ies
    case SymbolSpace => c.ils - c.ies
    case WordSpace => c.iws - c.ils
  }

  function Tick(c: Config, s: Clocked, call: Call): Clocked {
    var k := Next(c, s.k, call.key, call.ticks);
    var now := s.now + call.ticks;
    if s.k.phase.Off? then Clocked(k, now, now, Nominal(c, k.phase))
    else if k.phase == s.k.phase then Clocked(k, now, s.start, s.due)
    else Clocked(k, now, s.start, s.due + Nominal(c, k.phase))
  }

  ghost function TickAll(c: Config, s: Clocked, calls: seq<Call>): Clocked {
    if calls == [] then s else Tick(c, TickAll(c, s, calls[..|calls| - 1]), calls[|calls| - 1])
  }

  predicate NoLongerThanShortest(c: Config, ticks: int) {
    && 0 < ticks && ticks <= c.dit && ticks <= c.dah && ticks <= c.ies
    && (c.autoIls ==> ticks <= c.ils - c.ies)
    && (c.autoIws ==> ticks <= c.iws - c.ils)
  }

  /** The next deadline is the sum of all the durations entered, and it has not passed. */
  ghost predicate OnSchedule(s: Clocked) {
    if s.k.phase.Off? then s.k.duration <= 0
    else s.k.duration == s.start + s.due - s.now && s.now < s.start + s.due
  }

  lemma TickKeepsSchedule(c: Config, s: Clocked, call: Call)
    requires OnSchedule(s) && NoLongerThanShortest(c, call.ticks)
    ensures OnSchedule(Tick(c, s, call))
    ensures !s.k.phase.Off? ==>
      (Tick(c, s, call).k.phase != s.k.phase <==> s.start + s.due <= s.now + call.ticks)
  {
    NextLasts(c, s.k, call, Next(c, s.k, call.key, call.ticks));
  }

  /** A new phase lasts its nominal time less what the old one overran. */
  ghost predicate Lasts(c: Config, k: Keyer, left: int, k': Keyer) {
    && (k'.phase.Off? <==> k'.duration <= 0)
    && if k.phase.Off? then k'.duration == Nominal(c, k'.phase)
       else k'.duration == left + (if left > 0 then 0 else Nominal(c, k'.phase)) && (k'.phase != k.phase <==> left <= 0)
  }

  lemma NextLasts(c: Config, k: Keyer, call: Call, k': Keyer)
    requires NoLongerThanShortest(c, call.ticks) && if k.phase.Off? then k.duration <= 0 else 0 < k.duration
    requires k' == Next(c, k, call.key, call.ticks)
    ensures Lasts(c, k, k.duration - call.ticks, k')
  {
    var left := k.duration - call.ticks;
    if left <= 0 {
      AdvanceLasts(c, k, call.ticks, k.(key := call.key, mem := Both(k.mem, call.key), duration := left), k');
    }
  }

  lemma AdvanceLasts(c: Config, k: Keyer, ticks: int, k1: Keyer, k': Keyer)
    requires NoLongerThanShortest(c, ticks) && k' == Advance(c, k1) && k1.phase == k.phase
    requires if k.phase.Off? then k1.duration <= 0 else -ticks < k1.duration <= 0
    ensures Lasts(c, k, k1.duration, k')
  {
  }

  lemma {:induction false} StaysOnSchedule(c: Config, calls: seq<Call>)
    requires forall k :: 0 <= k < |calls| ==> NoLongerThanShortest(c, calls[k].ticks)
    ensures OnSchedule(TickAll(c, Clocked(AT_REST, 0, 0, 0), calls))
  {
    if calls != [] {
      var n := |calls| - 1;
      StaysOnSchedule(c, calls[..n]);
      TickKeepsSchedule(c, TickAll(c, Clocked(AT_REST, 0, 0, 0), calls[..n]), calls[n]);
    }
  }

  /**
   However many elements have gone before, the phase changes on the first call at or after the sum of
   their nominal durations, so lateness never builds up: it stays below the ticks of that one call.
   */
  lemma {:induction false} NoDrift(c: Config, calls: seq<Call>, call: Call)
    requires forall k :: 0 <= k < |calls| ==> NoLongerThanShortest(c, calls[k].ticks)
    requires NoLongerThanShortest(c, call.ticks)
    ensures var s := TickAll(c, Clocked(AT_REST, 0, 0, 0), calls);
      var s' := Tick(c, s, call);
      !s.k.phase.Off? ==>
        && (s'.k.phase != s.k.phase <==> s.start + s.due <= s'.now)
        && (s'.k.phase != s.k.phase ==> 0 <= s'.now - (s.start + s.due) < call.ticks)
        && (s'.k.keyOut != s.k.keyOut ==> s'.k.phase != s.k.phase)
  {
    StaysOnSchedule(c, calls);
    TickKeepsSchedule(c, TickAll(c, Clocked(AT_REST, 0, 0, 0), calls), call);
  }
}
