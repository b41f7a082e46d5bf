/** dspmath/morse_timing.h: samples per element and space, and what weight and compensation do to them. */
module MorseTiming {
  import opened RingArithmetic
  import opened MorseText

  /** The five lengths, in dits or in samples. */
  datatype Lengths = Lengths(dit: real, dah: real, ies: real, ils: real, iws: real)

  /** Ratio, weight and compensation, all in dits. */
  function Adjusted(l: Lengths, r: real, w: real, c: real): Lengths {
    Lengths(l.dit + r + w + c, l.dah - r + w + c, l.ies - w - c, l.ils - w - c, l.iws - w - c)
  }

  function Scaled(l: Lengths, base: nat): Lengths {
    Lengths(l.dit * base as real, l.dah * base as real, l.ies * base as real, l.ils * base as real,
      l.iws * base as real)
  }

  /** Conversion to unsigned is defined: what is left when the fraction is cut off fits. */
  predicate Convertible(x: real) {
    -1.0 < x < WRAP as real
  }

  predicate InRange(l: Lengths) {
    Convertible(l.dit) && Convertible(l.dah) && Convertible(l.ies) && Convertible(l.ils) && Convertible(l.iws)
  }

  /** No length is negative, and words are no closer than letters. */
  predicate Proper(l: Lengths) {
    InRange(l) && 0.0 <= l.dit && 0.0 <= l.dah && 0.0 <= l.ies && 0.0 <= l.ils <= l.iws
  }

  /** Conversion to unsigned cuts off the fraction. */
  function Cut(x: real): (n: nat)
    requires -1.0 < x
    ensures if x < 0.0 then n == 0 else n as real <= x < n as real + 1.0
  {
    if x < 0.0 then 0 else x.Floor
  }

  function Timed(l: Lengths): (t: Timing)
    requires InRange(l)
    ensures ValidTiming(t)
  {
    Timing(Cut(l.dit), Cut(l.dah), Cut(l.ies), Cut(l.ils), Cut(l.iws))
  }

  /** Farnsworth timing stretches the spaces between letters and words. */
  function Stretched(t: Timing, wpm: real, farnsworth: real): Timing {
    if 5.0 < farnsworth < wpm then
      FarnsworthStretches(wpm, farnsworth);
      t.(ils := Longer(t.ils, Farnsworth(wpm, farnsworth)), iws := Longer(t.iws, Farnsworth(wpm, farnsworth)))
    else t
  }

  function Farnsworth(wpm: real, farnsworth: real): real
    requires farnsworth != 0.0
  {
    50.0 / 19.0 * wpm / farnsworth - 31.0 / 19.0
  }

  function Longer(n: nat, f: real): (m: nat)
    requires 1.0 < f
    ensures n <= m
  {
    assert n as real <= n as real * f;
    Cut(n as real * f)
  }

  function BaseOf(sampleRate: nat, word: real, wpm: real): (n: nat)
    requires 0.0 < wpm * word
  {
    Quotient(sampleRate as real * 60.0, wpm * word);
    (sampleRate as real * 60.0 / (wpm * word)).Floor
  }

  /** So many base dits fit into a minute of samples, and one sample more to each of them does not. */
  predicate MinuteIs(base: nat, sampleRate: nat, dits: real) {
    base as real * dits <= 60.0 * sampleRate as real < (base + 1) as real * dits
  }

  lemma BaseIs(sampleRate: nat, word: real, wpm: real)
    requires 0.0 < wpm * word
    ensures MinuteIs(BaseOf(sampleRate, word, wpm), sampleRate, wpm * word)
  {
    MinuteOf(sampleRate, wpm * word);
  }

  lemma MinuteOf(sampleRate: nat, dits: real)
    requires 0.0 < dits
    ensures 0.0 <= sampleRate as real * 60.0 / dits
    ensures MinuteIs((sampleRate as real * 60.0 / dits).Floor, sampleRate, dits)
  {
    var all := sampleRate as real * 60.0;
    Quotient(all, dits);
    Divided(all, dits);
    var n := (all / dits).Floor;
    Between(n as real, (n + 1) as real, all / dits, dits, all);
  }

  lemma Divided(a: real, b: real)
    requires 0.0 < b
    ensures a / b * b == a
  {
  }

  lemma Between(n: real, m: real, q: real, p: real, all: real)
    requires n <= q < m && 0.0 < p && q * p == all
    ensures n * p <= all < m * p
  {
    Scales(n, q, p);
    Scales(q, m, p);
  }

  lemma OneMoreEach(n: nat, p: real)
    ensures (n + 1) as real * p == n as real * p + p
  {
    var x, y := n as real, (n + 1) as real;
    assert y == x + 1.0;
    Distributed(x, y, p);
  }

  lemma Distributed(x: real, y: real, p: real)
    requires y == x + 1.0
    ensures y * p == x * p + p
  {
  }

  lemma Scales(a: real, b: real, p: real)
    requires a <= b && 0.0 < p
    ensures a * p <= b * p && (a < b ==> a * p < b * p)
  {
    var d := b - a;
    assert d * p == b * p - a * p;
    assert 0.0 <= d ==> 0.0 <= d * p;
    assert 0.0 < d ==> 0.0 < d * p;
  }

  lemma Quotient(a: real, b: real)
    requires 0.0 <= a && 0.0 < b
    ensures 0.0 <= a / b
  {
    assert a / b * b == a;
  }

  class SamplesPer {
    var base: nat
    var dit: nat
    var dah: nat
    var ies: nat
    var ils: nat
    var iws: nat

    ghost function Value(): Timing
      reads this
    {
      Timing(dit, dah, ies, ils, iws)
    }

    constructor ()
    {
      base, dit, dah, ies, ils, iws := 0, 0, 0, 0, 0, 0;
    }

    /** Weight and ratio are percentages, compensation is in milliseconds, and a minute has 60 seconds. */
    method Set(sampleRate: nat, word: real, wpm: real, dits: Lengths, weight: real, ratio: real, comp: real,
               farnsworth: real)
      requires 0.0 < wpm * word && InRange(InSamples(sampleRate, word, wpm, dits, weight, ratio, comp))
      modifies this
      ensures MinuteIs(base, sampleRate, wpm * word) && base == BaseOf(sampleRate, word, wpm)
      ensures Value() == Stretched(Timed(InSamples(sampleRate, word, wpm, dits, weight, ratio, comp)), wpm, farnsworth)
    {
      var msPerDit := 60000.0 / (wpm * word);
      var r := (ratio - 50.0) / 100.0;
      var w := (weight - 50.0) / 100.0;
      var c := comp / msPerDit;
      Quotient(sampleRate as real * 60.0, wpm * word);
      base := (sampleRate as real * 60.0 / (wpm * word)).Floor;
      BaseIs(sampleRate, word, wpm);
      Convert(Scaled(Adjusted(dits, r, w, c), base));
      Stretch(wpm, farnsworth);
    }

    method Convert(l: Lengths)
      requires InRange(l)
      modifies `dit, `dah, `ies, `ils, `iws
      ensures Value() == Timed(l)
    {
      dit := Cut(l.dit);
      dah := Cut(l.dah);
      ies := Cut(l.ies);
      ils := Cut(l.ils);
      iws := Cut(l.iws);
    }

    method Stretch(wpm: real, farnsworth: real)
      modifies `ils, `iws
      ensures Value() == Stretched(old(Value()), wpm, farnsworth)
    {
      if 5.0 < farnsworth < wpm {
        FarnsworthStretches(wpm, farnsworth);
        var f := Farnsworth(wpm, farnsworth);
        ils := Longer(ils, f);
        iws := Longer(iws, f);
      }
    }
  }

  function InSamples(sampleRate: nat, word: real, wpm: real, dits: Lengths, weight: real, ratio: real,
                     comp: real): Lengths
    requires 0.0 < wpm * word
  {
    var r, w, c := (ratio - 50.0) / 100.0, (weight - 50.0) / 100.0, comp / (60000.0 / (wpm * word));
    Scaled(Adjusted(dits, r, w, c), BaseOf(sampleRate, word, wpm))
  }

  /** The stretch is by more than one. */
  lemma FarnsworthStretches(wpm: real, farnsworth: real)
    requires 5.0 < farnsworth < wpm
    ensures 1.0 < Farnsworth(wpm, farnsworth)
  {
    var q := 50.0 / 19.0 * wpm / farnsworth;
    assert q * farnsworth == 50.0 / 19.0 * wpm;
  }

  // ---- what the settings do to the lengths ----

  /** Neutral settings leave the lengths in dits as they are. */
  lemma NeutralSettings(sampleRate: nat, word: real, wpm: real, dits: Lengths)
    requires 0.0 < wpm * word
    ensures InSamples(sampleRate, word, wpm, dits, 50.0, 50.0, 0.0) == Scaled(dits, BaseOf(sampleRate, word, wpm))
  {
    Fraction(0.0, wpm * word);
  }

  /** A compensation in milliseconds as a number of dits. */
  lemma Fraction(comp: real, p: real)
    requires 0.0 < p
    ensures comp / (60000.0 / p) == comp * p / 60000.0
  {
    var ms := 60000.0 / p;
    assert ms * p == 60000.0;
    Positive(ms, p);
    var x := comp / ms;
    assert x * ms == comp;
    assert x * 60000.0 == (x * ms) * p;
  }

  /**
   With neutral settings and a dit of one, wpm words of `word` dits last a minute to within the rounding of the dit:
   they are no longer, and less than one sample for each dit shorter.
   */
  lemma WordsLastAMinute(sampleRate: nat, word: real, wpm: real, dits: Lengths)
    requires 0.0 < wpm * word && dits.dit == 1.0
    ensures var dit := InSamples(sampleRate, word, wpm, dits, 50.0, 50.0, 0.0).dit;
      60.0 * sampleRate as real - wpm * word < (wpm * word) * dit <= 60.0 * sampleRate as real
  {
    NeutralSettings(sampleRate, word, wpm, dits);
    BaseIs(sampleRate, word, wpm);
    OneMoreEach(BaseOf(sampleRate, word, wpm), wpm * word);
  }

  /** Each percent of weight makes every mark a hundredth of a dit longer, and every space as much shorter. */
  lemma PercentsOfWeight(sampleRate: nat, word: real, wpm: real, dits: Lengths, weight: real, ratio: real,
                         comp: real, more: real)
    requires 0.0 < wpm * word
    ensures var shift := more / 100.0 * BaseOf(sampleRate, word, wpm) as real;
      InSamples(sampleRate, word, wpm, dits, weight + more, ratio, comp) ==
        Shifted(InSamples(sampleRate, word, wpm, dits, weight, ratio, comp), shift)
  {
    var r, c := (ratio - 50.0) / 100.0, comp / (60000.0 / (wpm * word));
    var w, w' := (weight - 50.0) / 100.0, (weight + more - 50.0) / 100.0;
    assert (w' + c) - (w + c) == more / 100.0;
    WeightShifts(dits, BaseOf(sampleRate, word, wpm), r, w, c, w', c);
  }

  /**
   Each percent of ratio makes dits a hundredth of a dit longer and dahs as much shorter, and leaves the spaces
   alone.
   */
  lemma PercentsOfRatio(sampleRate: nat, word: real, wpm: real, dits: Lengths, weight: real, ratio: real, comp: real,
                        more: real)
    requires 0.0 < wpm * word
    ensures var l := InSamples(sampleRate, word, wpm, dits, weight, ratio, comp);
      var shift := more / 100.0 * BaseOf(sampleRate, word, wpm) as real;
      InSamples(sampleRate, word, wpm, dits, weight, ratio + more, comp) ==
        l.(dit := l.dit + shift, dah := l.dah - shift)
  {
    var r, r' := (ratio - 50.0) / 100.0, (ratio + more - 50.0) / 100.0;
    assert r' == r + more / 100.0;
    var w, c := (weight - 50.0) / 100.0, comp / (60000.0 / (wpm * word));
    RatioShifts(Adjusted(dits, r, w, c), Adjusted(dits, r', w, c), more / 100.0, BaseOf(sampleRate, word, wpm));
  }

  lemma RatioShifts(l: Lengths, l': Lengths, x: real, base: nat)
    requires l' == l.(dit := l.dit + x, dah := l.dah - x)
    ensures var m := Scaled(l, base);
      Scaled(l', base) == m.(dit := m.dit + x * base as real, dah := m.dah - x * base as real)
  {
    var n := base as real;
    assert (l.dit + x) * n == l.dit * n + x * n && (l.dah - x) * n == l.dah * n - x * n;
  }

  /**
   Each millisecond of compensation makes every mark a millisecond longer and every space as much shorter, to within
   the rounding of the dit.
   */
  lemma MillisecondsOfCompensation(sampleRate: nat, word: real, wpm: real, dits: Lengths, weight: real, ratio: real,
                                   comp: real, more: real) returns (ms: real)
    requires 0.0 < wpm * word
    ensures sampleRate as real / 1000.0 - wpm * word / 60000.0 < ms <= sampleRate as real / 1000.0
    ensures InSamples(sampleRate, word, wpm, dits, weight, ratio, comp + more) ==
      Shifted(InSamples(sampleRate, word, wpm, dits, weight, ratio, comp), more * ms)
  {
    var p, base := wpm * word, BaseOf(sampleRate, word, wpm);
    ms := p * base as real / 60000.0;
    BaseIs(sampleRate, word, wpm);
    Millisecond(base, sampleRate, p);
    Fraction(comp, p);
    Fraction(comp + more, p);
    var r, w := (ratio - 50.0) / 100.0, (weight - 50.0) / 100.0;
    var c, c' := comp / (60000.0 / p), (comp + more) / (60000.0 / p);
    DitsOfCompensation(w, c, c', comp, more, p, base as real);
    WeightShifts(dits, base, r, w, c, w, c');
  }

  lemma Millisecond(base: nat, sampleRate: nat, p: real)
    requires MinuteIs(base, sampleRate, p)
    ensures sampleRate as real / 1000.0 - p / 60000.0 < p * base as real / 60000.0 <= sampleRate as real / 1000.0
  {
    OneMoreEach(base, p);
  }

  lemma DitsOfCompensation(w: real, c: real, c': real, comp: real, more: real, p: real, b: real)
    requires c == comp * p / 60000.0 && c' == (comp + more) * p / 60000.0
    ensures ((w + c') - (w + c)) * b == more * (p * b / 60000.0)
  {
    assert (comp + more) * p == comp * p + more * p;
    assert (more * p) * b == more * (p * b);
  }

  /**
   The Farnsworth factor: of the 50 dits of a standard word 31 stay as they are and the 19 of its letter and word
   spaces are stretched by it, so that the word takes as long as 50 dits at the slower speed.
   */
  lemma FarnsworthPace(wpm: real, farnsworth: real)
    requires 5.0 < farnsworth < wpm
    ensures (31.0 + 19.0 * Farnsworth(wpm, farnsworth)) / wpm == 50.0 / farnsworth
  {
    var q := 50.0 / 19.0 * wpm / farnsworth;
    assert q * farnsworth == 50.0 / 19.0 * wpm;
    var x := 31.0 + 19.0 * Farnsworth(wpm, farnsworth);
    assert x == 19.0 * q;
    assert x * farnsworth == 50.0 * wpm;
    SameQuotient(x, wpm, 50.0, farnsworth);
  }

  lemma SameQuotient(a: real, b: real, c: real, d: real)
    requires 0.0 < b && 0.0 < d && a * d == c * b
    ensures a / b == c / d
  {
    var x, y := a / b, c / d;
    assert x * b == a && y * d == c;
    assert (x * b) * d == (y * d) * b;
    assert (x - y) * (b * d) == 0.0;
    assert 0.0 < b * d;
    Zero(x - y, b * d);
  }

  lemma Zero(a: real, b: real)
    requires a * b == 0.0 && 0.0 < b
    ensures a == 0.0
  {
  }

  lemma Positive(a: real, b: real)
    requires 0.0 < a * b && 0.0 < b
    ensures 0.0 < a
  {
  }

  /** It stretches those two spaces, with the fractions cut off, and nothing else, and only between 5 and wpm. */
  lemma StretchIs(t: Timing, wpm: real, farnsworth: real)
    ensures var s := Stretched(t, wpm, farnsworth);
      && s.dit == t.dit && s.dah == t.dah && s.ies == t.ies
      && if 5.0 < farnsworth < wpm then
           var f := Farnsworth(wpm, farnsworth);
           && s.ils as real <= t.ils as real * f < s.ils as real + 1.0
           && s.iws as real <= t.iws as real * f < s.iws as real + 1.0
         else s == t
  {
    if 5.0 < farnsworth < wpm {
      FarnsworthStretches(wpm, farnsworth);
      LongerIs(t.ils, Farnsworth(wpm, farnsworth));
      LongerIs(t.iws, Farnsworth(wpm, farnsworth));
    }
  }

  lemma LongerIs(n: nat, f: real)
    requires 1.0 < f
    ensures Longer(n, f) as real <= n as real * f < Longer(n, f) as real + 1.0
  {
    assert n as real <= n as real * f;
  }

  // ---- what weight and compensation do to a whole text ----

  function Exact(l: Lengths, i: Item): real {
    match i
    case Down(e) => if e.Dit? then l.dit else l.dah
    case Up(_, ends) => if ends then l.ils else l.ies
    case Pause => l.iws - l.ils
  }

  function ExactTotal(l: Lengths, items: seq<Item>): real {
    if items == [] then 0.0 else ExactTotal(l, items[..|items| - 1]) + Exact(l, items[|items| - 1])
  }

  function Total(t: Timing, items: seq<Item>): nat {
    if items == [] then 0 else Total(t, items[..|items| - 1]) + Duration(t, items[|items| - 1])
  }

  /** Marks less spaces. */
  function Balance(items: seq<Item>): int {
    if items == [] then 0 else
      Balance(items[..|items| - 1]) + match items[|items| - 1] case Down(_) => 1 case Up(_, _) => -1 case Pause => 0
  }

  lemma {:induction false} BalanceConcat(a: seq<Item>, b: seq<Item>)
    ensures Balance(a + b) == Balance(a) + Balance(b)
  {
    if b == [] {
      assert a + b == a;
    } else {
      assert (a + b)[..|a + b| - 1] == a + b[..|b| - 1];
      BalanceConcat(a, b[..|b| - 1]);
    }
  }

  lemma {:induction false} CodeBalances(code: string, n: nat, continues: bool)
    requires n <= |code|
    ensures Balance(CodeItems(code, n, continues)) == 0
  {
    if n > 0 {
      CodeBalances(code, n - 1, continues);
      var e, ends := ElementOf(code[n - 1]), n == |code| && !continues;
      BalanceConcat(CodeItems(code, n - 1, continues), [Down(e), Up(e, ends)]);
      assert [Down(e), Up(e, ends)][..1] == [Down(e)] && [Down(e)][..0] == [];
      assert Balance([Down(e)]) == 1;
    }
  }

  lemma {:induction false} GroupBalances(dict: Dict, group: string, n: nat)
    requires n <= |group|
    ensures Balance(GroupItems(dict, group, n)) == 0
  {
    if n > 0 {
      GroupBalances(dict, group, n - 1);
      var c, continues := group[n - 1], n != |group|;
      BalanceConcat(GroupItems(dict, group, n - 1), CharItems(dict, c, continues));
      if c in dict {
        CodeBalances(dict[c], |dict[c]|, continues);
      } else {
        assert [Pause][..0] == [];
      }
    }
  }

  /** Every mark of a text is followed by a space. */
  lemma {:induction false} TextBalances(dict: Dict, groups: seq<string>)
    ensures Balance(AllItems(dict, groups)) == 0
  {
    if groups != [] {
      var n := |groups| - 1;
      TextBalances(dict, groups[..n]);
      GroupBalances(dict, groups[n], |groups[n]|);
      BalanceConcat(AllItems(dict, groups[..n]), GroupItems(dict, groups[n], |groups[n]|));
    }
  }

  /** Marks longer and spaces shorter by the same. */
  function Shifted(l: Lengths, shift: real): Lengths {
    Lengths(l.dit + shift, l.dah + shift, l.ies - shift, l.ils - shift, l.iws - shift)
  }

  /** That is all that another weight or compensation does. */
  lemma WeightShifts(dits: Lengths, base: nat, r: real, w: real, c: real, w': real, c': real)
    ensures Scaled(Adjusted(dits, r, w', c'), base) ==
      Shifted(Scaled(Adjusted(dits, r, w, c), base), ((w' + c') - (w + c)) * base as real)
  {
    var l, shift := Adjusted(dits, r, w, c), (w' + c') - (w + c);
    assert Adjusted(dits, r, w', c') == Shifted(l, shift);
    var n := base as real;
    assert (l.dit + shift) * n == l.dit * n + shift * n && (l.dah + shift) * n == l.dah * n + shift * n;
    assert (l.ies - shift) * n == l.ies * n - shift * n && (l.ils - shift) * n == l.ils * n - shift * n;
    assert (l.iws - shift) * n == l.iws * n - shift * n;
  }

  function Times(n: int, shift: real): real {
    n as real * shift
  }

  lemma TimesAdds(n: int, shift: real)
    ensures Times(n + 1, shift) == Times(n, shift) + shift
    ensures Times(n - 1, shift) == Times(n, shift) - shift
  {
  }

  lemma {:induction false} TotalShifts(l: Lengths, shift: real, shifted: Lengths, items: seq<Item>)
    requires shifted == Shifted(l, shift)
    ensures ExactTotal(shifted, items) == ExactTotal(l, items) + Times(Balance(items), shift)
  {
    if items != [] {
      var n := |items| - 1;
      TotalShifts(l, shift, shifted, items[..n]);
      TimesAdds(Balance(items[..n]), shift);
    }
  }

  /** The exact length of a text does not depend on weight and compensation. */
  lemma LengthConserved(l: Lengths, shift: real, dict: Dict, typing: Typing, text: string)
    ensures ExactTotal(Shifted(l, shift), ItemsOf(dict, typing, text)) == ExactTotal(l, ItemsOf(dict, typing, text))
  {
    TextBalances(dict, TypeAll(typing, text).groups);
    TotalShifts(l, shift, Shifted(l, shift), ItemsOf(dict, typing, text));
    assert Times(0, shift) == 0.0;
  }

  // ---- the same after the fractions are cut off ----

  function Pauses(items: seq<Item>): nat {
    if items == [] then 0 else Pauses(items[..|items| - 1]) + if items[|items| - 1].Pause? then 1 else 0
  }

  /** The marks and spaces alone, and the pauses alone. */
  function Keyed(t: Timing, items: seq<Item>): nat {
    if items == [] then 0
    else Keyed(t, items[..|items| - 1]) + if items[|items| - 1].Pause? then 0 else Duration(t, items[|items| - 1])
  }

  function Paused(t: Timing, items: seq<Item>): nat {
    if items == [] then 0
    else Paused(t, items[..|items| - 1]) + if items[|items| - 1].Pause? then Duration(t, Pause) else 0
  }

  function ExactKeyed(l: Lengths, items: seq<Item>): real {
    if items == [] then 0.0
    else ExactKeyed(l, items[..|items| - 1]) + if items[|items| - 1].Pause? then 0.0 else Exact(l, items[|items| - 1])
  }

  function ExactPaused(l: Lengths, items: seq<Item>): real {
    if items == [] then 0.0
    else ExactPaused(l, items[..|items| - 1]) + if items[|items| - 1].Pause? then Exact(l, Pause) else 0.0
  }

  lemma {:induction false} InTwoParts(l: Lengths, t: Timing, items: seq<Item>)
    ensures Total(t, items) == Keyed(t, items) + Paused(t, items)
    ensures ExactTotal(l, items) == ExactKeyed(l, items) + ExactPaused(l, items)
    ensures Pauses(items) <= |items|
  {
    if items != [] {
      InTwoParts(l, t, items[..|items| - 1]);
    }
  }

  /** A mark or space loses less than a sample, so n of them lose less than n samples. */
  lemma {:induction false} CutFromText(l: Lengths, t: Timing, items: seq<Item>)
    requires Proper(l) && t == Timed(l)
    ensures var n := |items| - Pauses(items);
      && 0 <= n && ExactKeyed(l, items) - n as real <= Keyed(t, items) as real <= ExactKeyed(l, items)
      && (0 < n ==> ExactKeyed(l, items) - n as real < Keyed(t, items) as real)
  {
    if items != [] {
      CutFromText(l, t, items[..|items| - 1]);
    }
  }

  /** A pause is off by less than a sample either way, and so differs by at most one. */
  lemma PausesDiffer(l: Lengths, shift: real)
    requires Proper(l) && Proper(Shifted(l, shift))
    ensures -1 <= Duration(Timed(Shifted(l, shift)), Pause) - Duration(Timed(l), Pause) <= 1
  {
  }

  lemma {:induction false} PausedDiffer(l: Lengths, shift: real, s: Timing, t: Timing, items: seq<Item>)
    requires Proper(l) && Proper(Shifted(l, shift)) && s == Timed(Shifted(l, shift)) && t == Timed(l)
    ensures ExactPaused(Shifted(l, shift), items) == ExactPaused(l, items)
    ensures var d := Paused(s, items) - Paused(t, items);
      d <= Pauses(items) && -d <= Pauses(items)
  {
    if items != [] {
      PausedDiffer(l, shift, s, t, items[..|items| - 1]);
      PausesDiffer(l, shift);
    }
  }

  predicate DifferByLess(x: nat, y: nat, n: nat, strictly: bool) {
    x - y <= n && y - x <= n && (strictly ==> x - y < n && y - x < n)
  }

  /**
   Two settings that differ in weight and compensation alone give lengths, in whole samples, that differ by
   less than one sample for each mark, space and pause of the text, or by no more than that for pauses alone.
   */
  lemma LengthsDifferByLess(l: Lengths, shift: real, dict: Dict, typing: Typing, text: string)
    requires Proper(l) && Proper(Shifted(l, shift))
    ensures var items := ItemsOf(dict, typing, text);
      DifferByLess(Total(Timed(Shifted(l, shift)), items), Total(Timed(l), items), |items|, Pauses(items) < |items|)
  {
    var items, m, s, t := ItemsOf(dict, typing, text), Shifted(l, shift), Timed(Shifted(l, shift)), Timed(l);
    LengthConserved(l, shift, dict, typing, text);
    InTwoParts(m, s, items);
    InTwoParts(l, t, items);
    CutFromText(m, s, items);
    CutFromText(l, t, items);
    PausedDiffer(l, shift, s, t, items);
    KeyedDiffer(ExactKeyed(l, items), |items| - Pauses(items), Keyed(s, items), Keyed(t, items));
  }

  lemma KeyedDiffer(exact: real, n: nat, x: nat, y: nat)
    requires exact - n as real <= x as real <= exact && exact - n as real <= y as real <= exact
    requires 0 < n ==> exact - n as real < x as real && exact - n as real < y as real
    ensures DifferByLess(x, y, n, 0 < n)
  {
  }

  // ---- the standard word ----

  const PARIS: Dict := map['P' := ".--.", 'A' := ".-", 'R' := ".-.", 'I' := "..", 'S' := "..."]

  lemma {:induction false} ExactConcat(l: Lengths, a: seq<Item>, b: seq<Item>)
    ensures ExactTotal(l, a + b) == ExactTotal(l, a) + ExactTotal(l, b)
  {
    if b == [] {
      assert a + b == a;
    } else {
      assert (a + b)[..|a + b| - 1] == a + b[..|b| - 1];
      ExactConcat(l, a, b[..|b| - 1]);
    }
  }

  /** The marks and spaces of a code, its last space that of a letter. */
  function CodeLength(l: Lengths, code: string, n: nat): real
    requires n <= |code|
  {
    if n == 0 then 0.0
    else
      CodeLength(l, code, n - 1)
      + (if code[n - 1] == '.' then l.dit else l.dah) + (if n == |code| then l.ils else l.ies)
  }

  lemma {:induction false} CodeLasts(l: Lengths, code: string, n: nat)
    requires n <= |code| && ValidCode(code)
    ensures ExactTotal(l, CodeItems(code, n, false)) == CodeLength(l, code, n)
  {
    if n > 0 {
      var e, ends := ElementOf(code[n - 1]), n == |code|;
      CodeLasts(l, code, n - 1);
      ExactConcat(l, CodeItems(code, n - 1, false), [Down(e), Up(e, ends)]);
      assert [Down(e), Up(e, ends)][..1] == [Down(e)] && [Down(e)][..0] == [];
      assert ExactTotal(l, [Down(e)]) == Exact(l, Down(e));
    }
  }

  /** One more character that is no part of a prosign. */
  lemma OneMoreCharacter(l: Lengths, text: string, c: char, items: seq<Item>)
    requires TypeAll(Typing("", 0), text).state == Typing("", 0) && c != '\\' && items == CharItems(PARIS, c, false)
    ensures TypeAll(Typing("", 0), text + [c]).state == Typing("", 0)
    ensures ExactTotal(l, ItemsOf(PARIS, Typing("", 0), text + [c])) ==
      ExactTotal(l, ItemsOf(PARIS, Typing("", 0), text)) + ExactTotal(l, items)
  {
    var before := TypeAll(Typing("", 0), text);
    assert (text + [c])[..|text|] == text;
    AllItemsStep(PARIS, before.groups + [[c]], before.groups, [c]);
    SingleItems(c);
    ExactConcat(l, AllItems(PARIS, before.groups), items);
  }

  lemma SingleItems(c: char)
    ensures GroupItems(PARIS, [c], 1) == CharItems(PARIS, c, false)
  {
    assert GroupItems(PARIS, [c], 0) == [];
  }

  lemma CodesLast(l: Lengths)
    ensures CodeLength(l, ".--.", 4) == 2.0 * l.dit + 2.0 * l.dah + 3.0 * l.ies + l.ils
    ensures CodeLength(l, ".-", 2) == l.dit + l.dah + l.ies + l.ils
    ensures CodeLength(l, ".-.", 3) == 2.0 * l.dit + l.dah + 2.0 * l.ies + l.ils
    ensures CodeLength(l, "..", 2) == 2.0 * l.dit + l.ies + l.ils
    ensures CodeLength(l, "...", 3) == 3.0 * l.dit + 2.0 * l.ies + l.ils
  {
    assert CodeLength(l, ".--.", 0) == CodeLength(l, ".-", 0) == CodeLength(l, ".-.", 0) == 0.0;
    assert CodeLength(l, ".--.", 1) == l.dit + l.ies && CodeLength(l, ".--.", 2) == l.dit + l.dah + 2.0 * l.ies;
    assert CodeLength(l, ".-", 1) == l.dit + l.ies && CodeLength(l, ".-.", 1) == l.dit + l.ies;
    assert CodeLength(l, "..", 1) == l.dit + l.ies && CodeLength(l, "...", 1) == l.dit + l.ies;
    assert CodeLength(l, ".-.", 2) == l.dit + l.dah + 2.0 * l.ies;
    assert CodeLength(l, "...", 2) == 2.0 * l.dit + 2.0 * l.ies;
  }

  lemma PauseLasts(l: Lengths)
    ensures ExactTotal(l, [Pause]) == l.iws - l.ils
  {
    assert [Pause][..0] == [];
  }

  /** The text has been typed with no prosign open, and lasts so long. */
  ghost predicate TypedSoFar(l: Lengths, text: string, total: real) {
    && TypeAll(Typing("", 0), text).state == Typing("", 0)
    && ExactTotal(l, ItemsOf(PARIS, Typing("", 0), text)) == total
  }

  lemma TypedLetter(l: Lengths, text: string, c: char, code: string, total: real, text': string, total': real)
    requires TypedSoFar(l, text, total) && c in PARIS && PARIS[c] == code && ValidCode(code) && c != '\\'
    requires text' == text + [c] && total' == total + CodeLength(l, code, |code|)
    ensures TypedSoFar(l, text', total')
  {
    CodeLasts(l, code, |code|);
    OneMoreCharacter(l, text, c, CodeItems(code, |code|, false));
  }

  lemma ThreeLetters(l: Lengths, p: string, pa: string, par: string)
    requires p == ['P'] && pa == p + ['A'] && par == pa + ['R']
    ensures TypedSoFar(l, par, 5.0 * l.dit + 4.0 * l.dah + 6.0 * l.ies + 3.0 * l.ils)
  {
    CodesLast(l);
    var t1 := 2.0 * l.dit + 2.0 * l.dah + 3.0 * l.ies + l.ils;
    var t2 := t1 + l.dit + l.dah + l.ies + l.ils;
    assert ItemsOf(PARIS, Typing("", 0), "") == [];
    TypedLetter(l, "", 'P', ".--.", 0.0, p, t1);
    TypedLetter(l, p, 'A', ".-", t1, pa, t2);
    TypedLetter(l, pa, 'R', ".-.", t2, par, t2 + 2.0 * l.dit + l.dah + 2.0 * l.ies + l.ils);
  }

  /** The standard word letter by letter. */
  lemma FiveLetters(l: Lengths, par: string, pari: string, paris: string)
    requires TypedSoFar(l, par, 5.0 * l.dit + 4.0 * l.dah + 6.0 * l.ies + 3.0 * l.ils)
    requires pari == par + ['I'] && paris == pari + ['S']
    ensures TypedSoFar(l, paris, 10.0 * l.dit + 4.0 * l.dah + 9.0 * l.ies + 5.0 * l.ils)
  {
    CodesLast(l);
    var t3 := 5.0 * l.dit + 4.0 * l.dah + 6.0 * l.ies + 3.0 * l.ils;
    var t4 := t3 + 2.0 * l.dit + l.ies + l.ils;
    TypedLetter(l, par, 'I', "..", t3, pari, t4);
    TypedLetter(l, pari, 'S', "...", t4, paris, t4 + 3.0 * l.dit + 2.0 * l.ies + l.ils);
  }

  /**
   The standard word with its space: ten dits, four dahs, nine spaces inside letters and four between, and one between
   words.  With dits of one, dahs of three, and spaces of one, three and seven that is 50.
   */
  lemma StandardWord(l: Lengths, word: string)
    requires word == "PARIS "
    ensures ExactTotal(l, ItemsOf(PARIS, Typing("", 0), word)) ==
      10.0 * l.dit + 4.0 * l.dah + 9.0 * l.ies + 4.0 * l.ils + l.iws
  {
    ThreeLetters(l, word[..1], word[..2], word[..3]);
    FiveLetters(l, word[..3], word[..4], word[..5]);
    PauseLasts(l);
    OneMoreCharacter(l, word[..5], ' ', [Pause]);
    assert word == word[..5] + [' '];
  }

  /**
   With those lengths and neutral settings, wpm standard words of 50 dits last a minute: no longer, and less than one
   sample for each of their dits shorter.
   */
  lemma StandardWordsLastAMinute(sampleRate: nat, wpm: real, dits: Lengths, word: string, l: Lengths, length: real)
    requires 0.0 < wpm && dits == Lengths(1.0, 3.0, 1.0, 3.0, 7.0) && word == "PARIS "
    requires l == InSamples(sampleRate, 50.0, wpm, dits, 50.0, 50.0, 0.0)
    requires length == ExactTotal(l, ItemsOf(PARIS, Typing("", 0), word))
    ensures 60.0 * sampleRate as real - wpm * 50.0 < wpm * length <= 60.0 * sampleRate as real
  {
    StandardWord(l, word);
    NeutralSettings(sampleRate, 50.0, wpm, dits);
    BaseIs(sampleRate, 50.0, wpm);
    FiftyDits(l, dits, BaseOf(sampleRate, 50.0, wpm), length, sampleRate, wpm);
  }

  lemma FiftyDits(l: Lengths, dits: Lengths, base: nat, length: real, sampleRate: nat, wpm: real)
    requires l == Scaled(dits, base) && dits == Lengths(1.0, 3.0, 1.0, 3.0, 7.0)
    requires length == 10.0 * l.dit + 4.0 * l.dah + 9.0 * l.ies + 4.0 * l.ils + l.iws
    requires MinuteIs(base, sampleRate, wpm * 50.0)
    ensures 60.0 * sampleRate as real - wpm * 50.0 < wpm * length <= 60.0 * sampleRate as real
  {
    assert length == 50.0 * base as real;
    OneMoreEach(base, wpm * 50.0);
    Fifty(wpm, base as real);
  }

  lemma Fifty(wpm: real, b: real)
    ensures b * (wpm * 50.0) == wpm * (50.0 * b)
  {
  }
}
