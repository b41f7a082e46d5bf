/** dspmath/iambic_dttsp.h: a keyer of elements, each a beep and the rest of its time, with delays and memories. */
module IambicDttsp {
  import opened Morse
  import opened Keying
  import opened Paddles
  import opened Remainders

  datatype Current = Nothing | Playing(e: Element)
  datatype Squeeze = NoSqueeze | PaddlesSqueezed | PaddlesReleased
  datatype Delay = NoDelay | CharSpacing | WordSpacing

  datatype Config = Config(modeB: bool, needMidElement: bool, wantDitMem: bool, wantDahMem: bool,
                           autoChar: bool, autoWord: bool, weight: int, ditlen: int)

  datatype Keyer = Keyer(prev: Keys, altrn: bool, psqam: bool, curr: Current, iamb: Squeeze, last: Current,
                         beep: int, dlay: int, elem: int, midl: int, delay: Delay)

  /** As constructed. */
  const AT_REST := Keyer(UP, false, false, Nothing, NoSqueeze, Nothing, 0, 0, 0, 0, NoDelay)

  /** Which element's times to set at the end of the call. */
  datatype Schedule = Keep | Cancel | Play(e: Element)

  datatype Turn = Turn(k: Keyer, sched: Schedule)

  function Beep(c: Config, e: Element): int {
    Quotient(c.ditlen * c.weight, 50) + if e.Dit? then 0 else 2 * c.ditlen
  }

  function Whole(c: Config, e: Element): int {
    if e.Dit? then 2 * c.ditlen else 4 * c.ditlen
  }

  function Reduced(left: int, ticks: int): int {
    if left > 0 then left - ticks else left
  }

  function CountDown(c: Config, k: Keyer, ticks: int): Keyer {
    var dlay := Reduced(k.dlay, ticks);
    if dlay > 0 then k.(dlay := dlay)
    else if k.elem <= 0 && k.delay == CharSpacing && c.autoWord then k.(dlay := 4 * c.ditlen, delay := WordSpacing)
    else k.(dlay := dlay, delay := NoDelay,
            midl := Reduced(k.midl, ticks), beep := Reduced(k.beep, ticks), elem := Reduced(k.elem, ticks))
  }

  function NoteSqueeze(k: Keyer, key: Keys): Keyer {
    if key == BOTH then k.(iamb := PaddlesSqueezed, psqam := k.psqam || k.midl <= 0)
    else if key == UP && k.iamb == PaddlesSqueezed then k.(iamb := PaddlesReleased)
    else k
  }

  /** Does the other element follow the one just finished? */
  predicate Alternates(c: Config, k: Keyer, key: Keys) {
    || key == BOTH
    || (k.altrn && k.iamb != PaddlesReleased)
    || (k.iamb == PaddlesReleased && c.modeB && (!c.needMidElement || k.psqam))
  }

  function Finish(c: Config, k: Keyer, key: Keys): Turn {
    if k.elem > 0 || k.curr.Nothing? then Turn(k, Keep) else
      var k1 := k.(last := k.curr, altrn := false, iamb := NoSqueeze, psqam := false);
      if Alternates(c, k, key) then Turn(k1.(curr := Playing(Other(k.curr.e))), Play(Other(k.curr.e)))
      else if c.autoChar && key == UP then Turn(k1.(curr := Nothing, dlay := 2 * c.ditlen, delay := CharSpacing), Keep)
      else Turn(k1.(curr := Nothing), Keep)
  }

  function Start(t: Turn, key: Keys): Turn {
    if t.k.curr.Playing? || key == UP then t
    else var e := if key.dah then Dah else Dit; Turn(t.k.(curr := Playing(e)), Play(e))
  }

  function Remember(c: Config, k: Keyer, key: Keys): Keyer {
    if (k.curr == Playing(Dit) && !k.prev.dah && key.dah && c.wantDahMem) ||
       (k.curr == Playing(Dah) && !k.prev.dit && key.dit && c.wantDitMem)
    then k.(altrn := true) else k
  }

  /** An element waiting for a delay to end is dropped if the paddles are let go and nothing remembers it. */
  function Drop(c: Config, t: Turn, key: Keys): Turn {
    if t.k.dlay > 0 && key == UP &&
       ((t.k.curr == Playing(Dit) && !c.wantDitMem) || (t.k.curr == Playing(Dah) && !c.wantDahMem))
    then Turn(t.k.(curr := Nothing), Cancel) else t
  }

  function SetTimes(c: Config, t: Turn): Keyer {
    match t.sched
    case Keep => t.k
    case Cancel => t.k.(beep := 0, midl := 0, elem := 0)
    case Play(e) => t.k.(beep := Beep(c, e), midl := Quotient(Beep(c, e), 2), elem := Whole(c, e))
  }

  function Next(c: Config, k: Keyer, key: Keys, ticks: int): Keyer {
    var t := Start(Finish(c, NoteSqueeze(CountDown(c, k, ticks), key), key), key);
    SetTimes(c, Drop(c, t.(k := Remember(c, t.k, key)), key)).(prev := key)
  }

  function Output(k: Keyer): int {
    if k.beep > 0 && k.dlay <= 0 then if k.curr == Playing(Dit) then DIT else DAH else OFF
  }

  class Dttsp {
    const c: Config
    var prev: Keys
    var altrn: bool
    var psqam: bool
    var curr: Current
    var iamb: Squeeze
    var last: Current
    var beep: int
    var dlay: int
    var elem: int
    var midl: int
    var delay: Delay

    ghost function Value(): Keyer
      reads this
    {
      Keyer(prev, altrn, psqam, curr, iamb, last, beep, dlay, elem, midl, delay)
    }

    constructor (c: Config)
      ensures this.c == c && Value() == AT_REST
    {
      this.c := c;
      prev, altrn, psqam, curr, iamb, last := UP, false, false, Nothing, NoSqueeze, Nothing;
      beep, dlay, elem, midl, delay := 0, 0, 0, 0, NoDelay;
    }

    method DoCountDown(ticks: int)
      modifies `beep, `dlay, `elem, `midl, `delay
      ensures Value() == CountDown(c, old(Value()), ticks)
    {
      dlay := dlay - if dlay > 0 then ticks else 0;
      if dlay <= 0 {
        if elem <= 0 && delay == CharSpacing && c.autoWord {
          dlay := c.ditlen * 4;
          delay := WordSpacing;
        } else {
          delay := NoDelay;
          midl := midl - if midl > 0 then ticks else 0;
          beep := beep - if beep > 0 then ticks else 0;
          elem := elem - if elem > 0 then ticks else 0;
        }
      }
    }

    method DoNoteSqueeze(dit: bool, dah: bool)
      modifies `iamb, `psqam
      ensures Value() == NoteSqueeze(old(Value()), Keys(dit, dah))
    {
      if dit && dah {
        iamb := PaddlesSqueezed;
        if midl <= 0 { psqam := true; }
      } else if !dit && !dah && iamb == PaddlesSqueezed {
        iamb := PaddlesReleased;
      }
    }

    method DoFinish(dit: bool, dah: bool) returns (sched: Schedule)
      modifies `last, `curr, `dlay, `delay, `altrn, `iamb, `psqam
      ensures Turn(Value(), sched) == Finish(c, old(Value()), Keys(dit, dah))
    {
      sched := Keep;
      if elem <= 0 && curr != Nothing {
        last := curr;
        if (dit && dah) || (altrn && iamb != PaddlesReleased) ||
           (iamb == PaddlesReleased && c.modeB && (!c.needMidElement || psqam)) {
          if last == Playing(Dah) {
            sched, curr := Play(Dit), Playing(Dit);
          } else {
            sched, curr := Play(Dah), Playing(Dah);
          }
        } else {
          curr := Nothing;
          if c.autoChar && !dit && !dah {
            dlay := c.ditlen * 2;
            delay := CharSpacing;
          }
        }
        altrn, iamb, psqam := false, NoSqueeze, false;
      }
    }

    method DoStart(dit: bool, dah: bool, s: Schedule) returns (sched: Schedule)
      modifies `curr
      ensures Turn(Value(), sched) == Start(Turn(old(Value()), s), Keys(dit, dah))
    {
      sched := s;
      if curr == Nothing {
        if dah {
          sched, curr := Play(Dah), Playing(Dah);
        } else if dit {
          sched, curr := Play(Dit), Playing(Dit);
        }
      }
    }

    method DoRemember(dit: bool, dah: bool)
      modifies `altrn
      ensures Value() == Remember(c, old(Value()), Keys(dit, dah))
    {
      if curr == Playing(Dit) && !prev.dah && dah && c.wantDahMem { altrn := true; }
      if curr == Playing(Dah) && !prev.dit && dit && c.wantDitMem { altrn := true; }
    }

    method DoDrop(dit: bool, dah: bool, s: Schedule) returns (sched: Schedule)
      modifies `curr
      ensures Turn(Value(), sched) == Drop(c, Turn(old(Value()), s), Keys(dit, dah))
    {
      sched := s;
      if dlay > 0 && !dit && !dah &&
         ((curr == Playing(Dit) && !c.wantDitMem) || (curr == Playing(Dah) && !c.wantDahMem)) {
        sched, curr := Cancel, Nothing;
      }
    }

    method DoSetTimes(sched: Schedule)
      modifies `beep, `midl, `elem
      ensures Value() == SetTimes(c, Turn(old(Value()), sched))
    {
      match sched {
        case Keep =>
        case Cancel =>
          beep, midl, elem := 0, 0, 0;
        case Play(e) =>
          beep := if e.Dit? then Quotient(c.ditlen * c.weight, 50)
            else Quotient(c.ditlen * c.weight, 50) + c.ditlen * 2;
          midl := Quotient(beep, 2);
          elem := if e.Dit? then c.ditlen * 2 else c.ditlen * 4;
      }
    }

    method Clock(dit: bool, dah: bool, ticks: int) returns (out: int)
      modifies this
      ensures Value() == Next(c, old(Value()), Keys(dit, dah), ticks)
      ensures out == Output(Value())
    {
      DoCountDown(ticks);
      DoNoteSqueeze(dit, dah);
      var sched := DoFinish(dit, dah);
      sched := DoStart(dit, dah, sched);
      DoRemember(dit, dah);
      sched := DoDrop(dit, dah, sched);
      DoSetTimes(sched);
      prev := Keys(dit, dah);
      out := if beep > 0 && dlay <= 0 then if curr == Playing(Dit) then DIT else DAH else OFF;
    }
  }

  // ---- runs, one tick a call ----

  ghost function Run(c: Config, k: Keyer, keys: seq<Keys>): Keyer {
    if keys == [] then k else Next(c, Run(c, k, keys[..|keys| - 1]), keys[|keys| - 1], 1)
  }

  ghost function Trace(c: Config, k: Keyer, keys: seq<Keys>): (outs: seq<int>)
    ensures |outs| == |keys|
  {
    if keys == [] then [] else Trace(c, k, keys[..|keys| - 1]) + [Output(Run(c, k, keys))]
  }

  /** A dit length, and a weight that leaves a mark and some space in every element. */
  predicate Sensible(c: Config) {
    0 < c.ditlen && 0 < Beep(c, Dit) < 2 * c.ditlen
  }

  // ---- both paddles held ----

  function Held(c: Config, n: nat): Keyer {
    if n == 0 then Next(c, AT_REST, BOTH, 1) else Next(c, Held(c, n - 1), BOTH, 1)
  }

  function TimesOf(c: Config): Times {
    Times(Beep(c, Dit), Beep(c, Dah), 2 * c.ditlen - Beep(c, Dit))
  }

  /** The output of the n-th call with both paddles held. */
  function HeldOutput(c: Config, n: nat): int {
    Output(Held(c, n))
  }

  /** Where the keyer is at tick p of the squeezed waveform. */
  ghost predicate HeldAt(c: Config, k: Keyer, p: int) {
    && k.dlay == 0
    && if p < 2 * c.ditlen
       then k.curr == Playing(Dit) && k.elem == 2 * c.ditlen - p && k.beep == AtLeastZero(Beep(c, Dit) - p)
       else
         && k.curr == Playing(Dah) && k.elem == 6 * c.ditlen - p
         && k.beep == AtLeastZero(Beep(c, Dah) + 2 * c.ditlen - p)
  }

  function AtLeastZero(x: int): int {
    if x > 0 then x else 0
  }

  lemma HeldStep(c: Config, k: Keyer, p: int)
    requires Sensible(c) && 0 <= p < 6 * c.ditlen && HeldAt(c, k, p)
    ensures HeldAt(c, Next(c, k, BOTH, 1), if p + 1 == 6 * c.ditlen then 0 else p + 1)
  {
  }

  lemma {:induction false} HeldPhase(c: Config, n: nat)
    requires Sensible(c)
    ensures HeldAt(c, Held(c, n), (n + 2 * c.ditlen) % (6 * c.ditlen))
  {
    var period := 6 * c.ditlen;
    if n > 0 {
      HeldPhase(c, n - 1);
      NextPhase(n - 1 + 2 * c.ditlen, period);
      HeldStep(c, Held(c, n - 1), (n - 1 + 2 * c.ditlen) % period);
    } else {
      ModOf(0, 2 * c.ditlen, period);
    }
  }

  /** The squeezed waveform, from its dah on. */
  lemma HeldIsSqueezed(c: Config, n: nat)
    requires Sensible(c)
    ensures HeldOutput(c, n) == Squeezed(TimesOf(c), n + 2 * c.ditlen)
  {
    HeldPhase(c, n);
  }

  // ---- mode A and mode B ----

  lemma {:induction false} RunConcat(c: Config, k: Keyer, a: seq<Keys>, b: seq<Keys>)
    ensures Run(c, k, a + b) == Run(c, Run(c, k, a), b)
  {
    if b == [] {
      assert a + b == a;
    } else {
      assert (a + b)[..|a + b| - 1] == a + b[..|b| - 1] && (a + b)[|a + b| - 1] == b[|b| - 1];
      RunConcat(c, k, a, b[..|b| - 1]);
    }
  }

  function Same(key: Keys, n: nat): (s: seq<Keys>)
    ensures |s| == n && forall i :: 0 <= i < n ==> s[i] == key
  {
    seq(n, _ => key)
  }

  lemma RunSame(c: Config, k: Keyer, key: Keys, n: nat)
    requires 0 < n
    ensures Run(c, k, Same(key, n)) == Next(c, Run(c, k, Same(key, n - 1)), key, 1)
  {
    assert Same(key, n)[..n - 1] == Same(key, n - 1);
  }

  /** Element e is being played, its mark no longer than itself, and no delay is running. */
  ghost predicate InElement(k: Keyer, e: Element, beep: int, elem: int) {
    k.curr == Playing(e) && k.beep == AtLeastZero(beep) && k.elem == elem && 0 < elem && beep <= elem && k.dlay <= 0
  }

  lemma StaysInElement(c: Config, k: Keyer, key: Keys, e: Element, beep: int, elem: int)
    requires InElement(k, e, beep, elem) && 1 < elem
    ensures var k' := Next(c, k, key, 1);
      && InElement(k', e, beep - 1, elem - 1) && k'.delay == NoDelay
      && (key == BOTH || k.iamb != NoSqueeze ==> k'.iamb != NoSqueeze)
      && (key == UP && k.iamb != NoSqueeze ==> k'.iamb == PaddlesReleased && k'.psqam == k.psqam)
  {
  }

  /** Any paddles during the element; a squeeze once seen is not forgotten. */
  lemma {:induction false} SqueezeIsKept(c: Config, k: Keyer, keys: seq<Keys>, e: Element, beep: int, elem: int)
    requires InElement(k, e, beep, elem) && |keys| < elem
    ensures InElement(Run(c, k, keys), e, beep - |keys|, elem - |keys|)
    ensures BOTH in keys || k.iamb != NoSqueeze ==> Run(c, k, keys).iamb != NoSqueeze
  {
    if keys != [] {
      var rest, last := keys[..|keys| - 1], keys[|keys| - 1];
      SqueezeIsKept(c, k, rest, e, beep, elem);
      StaysInElement(c, Run(c, k, rest), last, e, beep - |rest|, elem - |rest|);
      assert keys == rest + [last];
    }
  }

  /** Both paddles are down at a call by which the count to the middle of the element has run out. */
  ghost predicate SqueezedPast(midl: int, keys: seq<Keys>) {
    exists i :: 0 <= i < |keys| && keys[i] == BOTH && midl <= i + 1
  }

  lemma MiddleStep(c: Config, k: Keyer, key: Keys, e: Element, beep: int, elem: int)
    requires InElement(k, e, beep, elem) && 1 < elem
    ensures var k' := Next(c, k, key, 1);
      k'.midl == Reduced(k.midl, 1) && k'.psqam == (k.psqam || (key == BOTH && k'.midl <= 0))
  {
  }

  /** Any paddles during the element; the keyer notes exactly the squeezes past its middle. */
  lemma {:induction false} MiddleIsNoted(c: Config, k: Keyer, keys: seq<Keys>, e: Element, beep: int, elem: int)
    requires InElement(k, e, beep, elem) && |keys| < elem
    ensures Run(c, k, keys).midl == if k.midl <= 0 then k.midl else AtLeastZero(k.midl - |keys|)
    ensures Run(c, k, keys).psqam <==> k.psqam || SqueezedPast(k.midl, keys)
  {
    if keys != [] {
      var rest, last := keys[..|keys| - 1], keys[|keys| - 1];
      MiddleIsNoted(c, k, rest, e, beep, elem);
      SqueezeIsKept(c, k, rest, e, beep, elem);
      assert keys == rest + [last];
      NotedOnce(c, k, Run(c, k, rest), rest, last, e, beep - |rest|, elem - |rest|);
    }
  }

  lemma NotedOnce(c: Config, k: Keyer, r: Keyer, rest: seq<Keys>, last: Keys, e: Element, beep: int, elem: int)
    requires InElement(r, e, beep, elem) && 1 < elem
    requires r.midl == if k.midl <= 0 then k.midl else AtLeastZero(k.midl - |rest|)
    requires r.psqam <==> k.psqam || SqueezedPast(k.midl, rest)
    ensures var r' := Next(c, r, last, 1);
      && r'.midl == (if k.midl <= 0 then k.midl else AtLeastZero(k.midl - |rest| - 1))
      && (r'.psqam <==> k.psqam || SqueezedPast(k.midl, rest + [last]))
  {
    MiddleStep(c, r, last, e, beep, elem);
    OneMoreSqueeze(k.midl, rest, last);
  }

  lemma OneMoreSqueeze(midl: int, rest: seq<Keys>, last: Keys)
    ensures SqueezedPast(midl, rest + [last]) <==> SqueezedPast(midl, rest) || (last == BOTH && midl <= |rest| + 1)
  {
    var keys := rest + [last];
    if SqueezedPast(midl, rest) {
      var i :| 0 <= i < |rest| && rest[i] == BOTH && midl <= i + 1;
      assert keys[i] == BOTH;
    }
    if last == BOTH && midl <= |rest| + 1 {
      assert keys[|rest|] == BOTH;
    }
  }

  /** Where n calls with the paddles up lead from inside a squeezed element; `again` if one more is to follow. */
  ghost predicate ReleasedAt(c: Config, k: Keyer, e: Element, beep: int, elem: int, psqam: bool, again: bool, n: nat) {
    var o := Other(e);
    if n < elem then InElement(k, e, beep - n, elem - n) && k.iamb == PaddlesReleased && k.psqam == psqam
    else if again && n < elem + Whole(c, o)
    then InElement(k, o, elem + Beep(c, o) - n, elem + Whole(c, o) - n) && k.iamb == NoSqueeze && !k.altrn
    else k.curr == Nothing && k.beep <= 0
  }

  lemma SqueezedElementEnds(c: Config, k: Keyer, e: Element, beep: int)
    requires Sensible(c) && InElement(k, e, beep, 1) && k.iamb != NoSqueeze
    ensures var k', o := Next(c, k, UP, 1), Other(e);
      if c.modeB && (!c.needMidElement || k.psqam)
      then InElement(k', o, Beep(c, o), Whole(c, o)) && k'.iamb == NoSqueeze && !k'.altrn
      else k'.curr == Nothing && k'.beep <= 0
  {
  }

  lemma UnsqueezedElement(c: Config, k: Keyer, e: Element, beep: int, elem: int)
    requires InElement(k, e, beep, elem) && k.iamb == NoSqueeze && !k.altrn
    ensures var k' := Next(c, k, UP, 1);
      if 1 < elem then InElement(k', e, beep - 1, elem - 1) && k'.iamb == NoSqueeze && !k'.altrn
      else k'.curr == Nothing && k'.beep <= 0
  {
  }

  lemma StaysSilent(c: Config, k: Keyer)
    requires k.curr == Nothing && k.beep <= 0
    ensures Next(c, k, UP, 1).curr == Nothing && Next(c, k, UP, 1).beep <= 0
  {
  }

  lemma ReleasedStep(c: Config, k: Keyer, e: Element, beep: int, elem: int, psqam: bool, again: bool, n: nat)
    requires Sensible(c) && 0 < elem && again == (c.modeB && (!c.needMidElement || psqam))
    requires if n > 0 then ReleasedAt(c, k, e, beep, elem, psqam, again, n)
             else InElement(k, e, beep, elem) && k.iamb != NoSqueeze && k.psqam == psqam
    ensures ReleasedAt(c, Next(c, k, UP, 1), e, beep, elem, psqam, again, n + 1)
  {
    var o := Other(e);
    if n + 1 < elem {
      StaysInElement(c, k, UP, e, beep - n, elem - n);
    } else if n < elem {
      SqueezedElementEnds(c, k, e, beep - n);
    } else if again && n < elem + Whole(c, o) {
      UnsqueezedElement(c, k, o, elem + Beep(c, o) - n, elem + Whole(c, o) - n);
    } else {
      StaysSilent(c, k);
    }
  }

  lemma {:induction false} ReleasedPhase(c: Config, k: Keyer, e: Element, beep: int, elem: int, again: bool, n: nat)
    requires Sensible(c) && InElement(k, e, beep, elem) && k.iamb != NoSqueeze && 0 < n
    requires again == (c.modeB && (!c.needMidElement || k.psqam))
    ensures ReleasedAt(c, Run(c, k, Same(UP, n)), e, beep, elem, k.psqam, again, n)
  {
    RunSame(c, k, UP, n);
    if n == 1 {
      assert Run(c, k, Same(UP, 0)) == k;
      ReleasedStep(c, k, e, beep, elem, k.psqam, again, 0);
    } else {
      ReleasedPhase(c, k, e, beep, elem, again, n - 1);
      ReleasedStep(c, Run(c, k, Same(UP, n - 1)), e, beep, elem, k.psqam, again, n - 1);
    }
  }

  /**
   A squeeze seen during an element, whatever else the paddles do before they are let go.  The mark runs its
   course; in mode A nothing follows; in mode B exactly one opposite element follows at the end of this one,
   unless the middle of the element has to be reached and no squeeze came past it.
   */
  lemma SqueezeThenRelease(c: Config, k: Keyer, keys: seq<Keys>, e: Element, n: nat)
    requires Sensible(c) && InElement(k, e, k.beep, k.elem) && |keys| < k.elem && BOTH in keys && 0 < n
    ensures var o, elem := Other(e), k.elem - |keys|;
      var again := c.modeB && (!c.needMidElement || k.psqam || SqueezedPast(k.midl, keys));
      Output(Run(c, k, keys + Same(UP, n))) ==
        if n < k.beep - |keys| then Code(e)
        else if again && elem <= n < elem + Beep(c, o) then Code(o)
        else OFF
  {
    SqueezeIsKept(c, k, keys, e, k.beep, k.elem);
    MiddleIsNoted(c, k, keys, e, k.beep, k.elem);
    RunConcat(c, k, keys, Same(UP, n));
    var again := c.modeB && (!c.needMidElement || k.psqam || SqueezedPast(k.midl, keys));
    ReleasedPhase(c, Run(c, k, keys), e, k.beep - |keys|, k.elem - |keys|, again, n);
  }
}
