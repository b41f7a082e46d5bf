/** dspmath/filter_goertzel.h in exact arithmetic: a real recurrence that measures one bin of a Fourier transform. */
module Goertzel {
  import opened ComplexNumbers

  function SquaredSize(a: Complex): real {
    a.re * a.re + a.im * a.im
  }

  function Conjugate(a: Complex): Complex {
    Complex(a.re, -a.im)
  }

  predicate OnUnitCircle(w: Complex) {
    SquaredSize(w) == 1.0
  }

  // ---- the specification ----

  /** Powers of a turn on the unit circle. */
  function Turned(w: Complex, k: nat): Complex {
    if k == 0 then Complex(1.0, 0.0) else Mul(w, Turned(w, k - 1))
  }

  /** The Fourier sum of the samples: sample k against the k-th turn backwards. */
  function Fourier(w: Complex, x: seq<real>): Complex {
    if x == [] then ZERO
    else Add(Fourier(w, x[..|x| - 1]), Mul(Complex(x[|x| - 1], 0.0), Conjugate(Turned(w, |x| - 1))))
  }

  function Energy(x: seq<real>): real {
    if x == [] then 0.0 else Energy(x[..|x| - 1]) + x[|x| - 1] * x[|x| - 1]
  }

  // ---- the recurrence ----

  /** The two newest terms, the newer first. */
  datatype Terms = Terms(s1: real, s2: real)

  function NextTerms(coeff: real, t: Terms, x: real): Terms {
    Terms(x + coeff * t.s1 - t.s2, t.s1)
  }

  function Recurrence(coeff: real, x: seq<real>): Terms {
    if x == [] then Terms(0.0, 0.0)
    else NextTerms(coeff, Recurrence(coeff, x[..|x| - 1]), x[|x| - 1])
  }

  /** The measure that the code takes from the terms. */
  function Measure(coeff: real, t: Terms): real {
    t.s2 * t.s2 + t.s1 * t.s1 - coeff * t.s1 * t.s2
  }

  /** The complex sum that the terms stand for. */
  function SumOf(w: Complex, t: Terms): Complex {
    Complex(t.s1 - w.re * t.s2, w.im * t.s2)
  }

  lemma MeasureIsSize(w: Complex, coeff: real, t: Terms)
    requires OnUnitCircle(w) && coeff == 2.0 * w.re
    ensures Measure(coeff, t) == SquaredSize(SumOf(w, t))
  {
    var c, s, a, b := w.re, w.im, t.s1, t.s2;
    assert (s * b) * (s * b) == (s * s) * (b * b);
    assert (a - c * b) * (a - c * b) == a * a - 2.0 * c * a * b + (c * c) * (b * b);
    assert (c * c) * (b * b) + (s * s) * (b * b) == (c * c + s * s) * (b * b);
  }

  /** One sample turns the sum once and adds the sample. */
  lemma SumTurns(w: Complex, coeff: real, t: Terms, x: real)
    requires OnUnitCircle(w) && coeff == 2.0 * w.re
    ensures SumOf(w, NextTerms(coeff, t, x)) == Add(Mul(w, SumOf(w, t)), Complex(x, 0.0))
  {
    var c, s, a, b := w.re, w.im, t.s1, t.s2;
    assert c * (a - c * b) - s * (s * b) == c * a - (c * c + s * s) * b;
    assert c * (s * b) + s * (a - c * b) == s * a;
  }

  lemma SizeOfProduct(a: Complex, b: Complex)
    ensures SquaredSize(Mul(a, b)) == SquaredSize(a) * SquaredSize(b)
  {
  }

  lemma {:induction false} TurnedOnCircle(w: Complex, k: nat)
    requires OnUnitCircle(w)
    ensures OnUnitCircle(Turned(w, k))
  {
    if k > 0 {
      TurnedOnCircle(w, k - 1);
      SizeOfProduct(w, Turned(w, k - 1));
    }
  }

  lemma Associates(a: Complex, b: Complex, d: Complex)
    ensures Mul(a, Mul(b, d)) == Mul(Mul(a, b), d)
  {
  }

  lemma Distributes(a: Complex, b: Complex, d: Complex)
    ensures Mul(a, Add(b, d)) == Add(Mul(a, b), Mul(a, d))
  {
  }

  lemma TurnsBack(a: Complex, x: real)
    requires OnUnitCircle(a)
    ensures Mul(a, Mul(Complex(x, 0.0), Conjugate(a))) == Complex(x, 0.0)
  {
    var c, s := a.re, a.im;
    assert c * (x * c) + s * (x * s) == x * (c * c + s * s);
  }

  /** One more sample, of a sum that is f turned by a when it is turned once more. */
  lemma OneMoreSample(turned: Complex, a: Complex, f: Complex, x: real)
    requires OnUnitCircle(a) && turned == Mul(a, f)
    ensures Add(turned, Complex(x, 0.0)) == Mul(a, Add(f, Mul(Complex(x, 0.0), Conjugate(a))))
  {
    TurnsBack(a, x);
    Distributes(a, f, Mul(Complex(x, 0.0), Conjugate(a)));
  }

  lemma NothingYet(w: Complex, a: Complex)
    ensures Mul(w, SumOf(w, Terms(0.0, 0.0))) == Mul(a, ZERO)
  {
  }

  /** The sum is the Fourier sum, turned. */
  lemma {:induction false} SumIsFourierTurned(w: Complex, coeff: real, x: seq<real>, last: real)
    requires OnUnitCircle(w) && coeff == 2.0 * w.re
    ensures SumOf(w, Recurrence(coeff, x + [last])) == Mul(Turned(w, |x|), Fourier(w, x + [last]))
  {
    var n, terms, before, turn := |x|, Recurrence(coeff, x), Fourier(w, x), Turned(w, |x|);
    assert (x + [last])[..n] == x;
    TurnedOnCircle(w, n);
    SumTurns(w, coeff, terms, last);
    if n > 0 {
      assert x == x[..n - 1] + [x[n - 1]];
      SumIsFourierTurned(w, coeff, x[..n - 1], x[n - 1]);
      Associates(w, Turned(w, n - 1), before);
    } else {
      NothingYet(w, turn);
    }
    OneMoreSample(Mul(w, SumOf(w, terms)), turn, before, last);
  }

  /** Turning does not change the size, so the recurrence has the size of the Fourier sum. */
  lemma SumHasFourierSize(w: Complex, coeff: real, x: seq<real>, last: real)
    requires OnUnitCircle(w) && coeff == 2.0 * w.re
    ensures SameSize(SumOf(w, Recurrence(coeff, x + [last])), Fourier(w, x + [last]))
  {
    SumIsFourierTurned(w, coeff, x, last);
    TurnedOnCircle(w, |x|);
    TurnKeepsSize(Turned(w, |x|), Fourier(w, x + [last]));
  }

  predicate SameSize(a: Complex, b: Complex) {
    SquaredSize(a) == SquaredSize(b)
  }

  lemma OneMore(coeff: real, x: seq<real>, sample: real)
    ensures Recurrence(coeff, x + [sample]) == NextTerms(coeff, Recurrence(coeff, x), sample)
    ensures Energy(x + [sample]) == Energy(x) + sample * sample
  {
    assert (x + [sample])[..|x|] == x;
  }

  // ---- how large it can be ----

  lemma {:induction false} EnergyIsPositive(x: seq<real>)
    ensures 0.0 <= Energy(x)
  {
    if x != [] {
      EnergyIsPositive(x[..|x| - 1]);
    }
  }

  lemma Young(r: real, x: real, n: real)
    ensures 2.0 * (n * (r * x)) <= r * r + n * n * (x * x)
  {
    var d := r - n * x;
    assert 0.0 <= d * d;
    assert d * d == r * r - 2.0 * (n * (r * x)) + n * n * (x * x);
  }

  lemma Expanded(r: real, i: real, x: real, n: real)
    ensures n * ((r + x) * (r + x) + i * i) == n * (r * r) + 2.0 * (n * (r * x)) + n * (x * x) + n * (i * i)
    ensures (n + 1.0) * (r * r + i * i) == n * (r * r) + r * r + n * (i * i) + i * i
    ensures n * ((n + 1.0) * (x * x)) == n * n * (x * x) + n * (x * x)
  {
    assert (r + x) * (r + x) == r * r + 2.0 * (r * x) + x * x;
  }

  lemma Bounded(n: real, size: real, e: real, xx: real, m: real)
    requires 1.0 <= n && size <= n * e && m <= (n + 1.0) * size + n * ((n + 1.0) * xx)
    ensures m <= n * ((n + 1.0) * (e + xx))
  {
    assert (n + 1.0) * size <= (n + 1.0) * (n * e);
    assert (n + 1.0) * (n * e) == n * ((n + 1.0) * e);
    assert (n + 1.0) * (e + xx) == (n + 1.0) * e + (n + 1.0) * xx;
  }

  lemma Stretched(r: real, i: real, x: real, n: real)
    requires 1.0 <= n
    ensures n * ((r + x) * (r + x) + i * i) <= (n + 1.0) * (r * r + i * i) + n * ((n + 1.0) * (x * x))
  {
    Young(r, x, n);
    Expanded(r, i, x, n);
    assert 0.0 <= i * i;
  }

  lemma Divide(n: real, a: real, b: real)
    requires 1.0 <= n && n * a <= n * b
    ensures a <= b
  {
    assert b < a ==> n * (a - b) > 0.0;
  }

  lemma Together(n: real, size: real, e: real, xx: real, more: real)
    requires 1.0 <= n && size <= n * e && n * more <= (n + 1.0) * size + n * ((n + 1.0) * xx)
    ensures more <= (n + 1.0) * (e + xx)
  {
    Bounded(n, size, e, xx, n * more);
    Divide(n, more, (n + 1.0) * (e + xx));
  }

  /** One more term, of a sum of n that is at most n times the energy e. */
  lemma OneMoreTerm(a: Complex, x: real, n: real, e: real)
    requires 1.0 <= n && SquaredSize(a) <= n * e
    ensures SquaredSize(Add(a, Complex(x, 0.0))) <= (n + 1.0) * (e + x * x)
  {
    Stretched(a.re, a.im, x, n);
    Together(n, SquaredSize(a), e, x * x, (a.re + x) * (a.re + x) + a.im * a.im);
  }

  lemma TurnKeepsSize(w: Complex, a: Complex)
    requires OnUnitCircle(w)
    ensures SquaredSize(Mul(w, a)) == SquaredSize(a)
  {
    SizeOfProduct(w, a);
  }

  predicate AtMost(size: real, n: nat, e: real) {
    size <= n as real * e
  }

  /** The sum that the terms stand for has a squared size of at most n times the energy e. */
  predicate AtMostEnergy(w: Complex, t: Terms, n: nat, e: real) {
    AtMost(SquaredSize(SumOf(w, t)), n, e)
  }

  lemma TurnedAndMore(w: Complex, sum: Complex, x: real, n: nat, e: real)
    requires OnUnitCircle(w) && AtMost(SquaredSize(sum), n, e) && 0 < n
    ensures AtMost(SquaredSize(Add(Mul(w, sum), Complex(x, 0.0))), n + 1, e + x * x)
  {
    TurnKeepsSize(w, sum);
    OneMoreTerm(Mul(w, sum), x, n as real, e);
    assert (n + 1) as real == n as real + 1.0;
  }

  lemma NextSize(w: Complex, coeff: real, t: Terms, t': Terms, x: real, n: nat, e: real)
    requires OnUnitCircle(w) && coeff == 2.0 * w.re && 0 < n && AtMostEnergy(w, t, n, e)
    requires t' == NextTerms(coeff, t, x)
    ensures AtMostEnergy(w, t', n + 1, e + x * x)
  {
    SumTurns(w, coeff, t, x);
    TurnedAndMore(w, SumOf(w, t), x, n, e);
  }

  lemma FirstSize(w: Complex, coeff: real, x: real)
    ensures AtMostEnergy(w, NextTerms(coeff, Terms(0.0, 0.0), x), 1, 0.0 + x * x)
  {
    assert NextTerms(coeff, Terms(0.0, 0.0), x) == Terms(x, 0.0);
  }

  /** The squared size of a sum of samples is at most their number times their energy. */
  lemma {:induction false} SumAtMostEnergy(w: Complex, coeff: real, x: seq<real>, last: real)
    requires OnUnitCircle(w) && coeff == 2.0 * w.re
    ensures AtMostEnergy(w, Recurrence(coeff, x + [last]), |x| + 1, Energy(x + [last]))
  {
    OneMore(coeff, x, last);
    if x == [] {
      FirstSize(w, coeff, last);
    } else {
      var n := |x| - 1;
      SumAtMostEnergy(w, coeff, x[..n], x[n]);
      assert x == x[..n] + [x[n]];
      NextSize(w, coeff, Recurrence(coeff, x), Recurrence(coeff, x + [last]), last, |x|, Energy(x));
    }
  }

  /** The power of a block of samples is bounded by their energy. */
  lemma {:induction false} PowerAtMostEnergy(w: Complex, coeff: real, x: seq<real>, last: real)
    requires OnUnitCircle(w) && coeff == 2.0 * w.re
    ensures AtMost(SquaredSize(Fourier(w, x + [last])), |x| + 1, Energy(x + [last]))
  {
    SumHasFourierSize(w, coeff, x, last);
    SumAtMostEnergy(w, coeff, x, last);
  }

  // ---- the code ----

  class Filter {
    const blockSize: int
    const coeff: real
    const s: array<real>
    var sum2: real
    var i: int
    var power: real
    var energy: real
    // the samples of the block so far
    ghost var x: seq<real>

    ghost predicate Valid()
      reads this, s
    {
      && 2 <= blockSize && s.Length == 4
      && 0 <= i && i == blockSize - |x|
      && sum2 == Energy(x)
      && Terms(s[(i + 1) % 4], s[(i + 2) % 4]) == Recurrence(coeff, x)
    }

    constructor (blockSize: int, coeff: real)
      requires 2 <= blockSize
      ensures Valid() && this.blockSize == blockSize && this.coeff == coeff && x == []
    {
      this.blockSize, this.coeff := blockSize, coeff;
      s := new real[4](_ => 0.0);
      sum2, power, energy := 0.0, 0.0, 0.0;
      i, x := blockSize, [];
    }

    /** A sample; after block size and one of them, the power and energy of the block, and a new block. */
    method Process(sample: real) returns (done: bool)
      requires Valid()
      modifies this, s
      ensures Valid()
      ensures done <==> |old(x)| == blockSize
      ensures x == if done then [] else old(x) + [sample]
      ensures !done ==> power == old(power) && energy == old(energy)
      ensures done ==> energy == Energy(old(x) + [sample])
      ensures done ==> IsOverHalf(power, blockSize, Measure(coeff, Recurrence(coeff, old(x) + [sample])))
    {
      Store(sample);
      done := i < 0;
      if done { Report(); }
    }

    /** The next term of the recurrence, in the slot before the two it is made from. */
    method Store(sample: real)
      requires Valid()
      modifies `sum2, `i, `x, s
      ensures i == old(i) - 1 && x == old(x) + [sample] && sum2 == Energy(x)
      ensures Terms(s[(i + 1) % 4], s[(i + 2) % 4]) == Recurrence(coeff, x)
    {
      OneMore(coeff, x, sample);
      var term := sample + coeff * s[(i + 1) % 4] - s[(i + 2) % 4];
      assert Terms(term, s[(i + 1) % 4]) == NextTerms(coeff, Recurrence(coeff, x), sample);
      s[i % 4] := term;
      sum2 := sum2 + sample * sample;
      x := x + [sample];
      i := i - 1;
    }

    /** The block is complete. */
    method Report()
      requires 2 <= blockSize && s.Length == 4 && i == -1
      requires sum2 == Energy(x) && Terms(s[0], s[1]) == Recurrence(coeff, x)
      modifies this, s
      ensures Valid() && x == [] && energy == Energy(old(x))
      ensures IsOverHalf(power, blockSize, Measure(coeff, Recurrence(coeff, old(x))))
    {
      ghost var t := Terms(s[0], s[1]);
      var m := s[1] * s[1] + s[0] * s[0] - coeff * s[0] * s[1];
      assert m == Measure(coeff, t);
      power := m / (blockSize / 2) as real;
      OverHalf(m, blockSize);
      energy := sum2;
      i := blockSize;
      s[0], s[1], s[2], s[3] := 0.0, 0.0, 0.0, 0.0;
      sum2 := 0.0;
      x := [];
    }
  }

  /** The code divides by half the block size, rounded down. */
  predicate IsOverHalf(power: real, blockSize: int, m: real) {
    power * (blockSize / 2) as real == m
  }

  lemma OverHalf(m: real, blockSize: int)
    requires 2 <= blockSize
    ensures IsOverHalf(m / (blockSize / 2) as real, blockSize, m)
  {
  }

  /**
   What the code reports is the power of the block in the bin it is set to, scaled by half the block size, and
   it is never more than the number of samples times their energy.
   */
  lemma ReportIsPower(w: Complex, coeff: real, blockSize: int, x: seq<real>, power: real)
    requires OnUnitCircle(w) && coeff == 2.0 * w.re && 2 <= blockSize && |x| == blockSize + 1
    requires IsOverHalf(power, blockSize, Measure(coeff, Recurrence(coeff, x)))
    ensures IsOverHalf(power, blockSize, SquaredSize(Fourier(w, x)))
    ensures AtMost(power * (blockSize / 2) as real, blockSize + 1, Energy(x))
  {
    var terms := Recurrence(coeff, x);
    MeasureIsSize(w, coeff, terms);
    assert x == x[..blockSize] + [x[blockSize]];
    SumHasFourierSize(w, coeff, x[..blockSize], x[blockSize]);
    PowerAtMostEnergy(w, coeff, x[..blockSize], x[blockSize]);
  }
}
