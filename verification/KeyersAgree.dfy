/** Four independently written keyers send the same waveform for as long as both paddles are held. */
module KeyersAgree {
  import opened Keying
  import opened Paddles
  import opened Remainders
  import A = IambicAd5dz
  import K = IambicK1el
  import N = IambicNd7pa
  import D = IambicDttsp

  function TimesOf(c: A.Config): Times {
    Times(c.dit, c.dah, c.ies)
  }

  function Held(c: A.Config, n: nat): A.Keyer {
    A.Next(c, if n == 0 then A.AT_REST else Held(c, n - 1), BOTH, 1)
  }

  /** The output of the n-th call with both paddles held. */
  function HeldOutput(c: A.Config, n: nat): int {
    Held(c, n).keyOut
  }

  /** Where the ad5dz keyer is at tick p of the squeezed waveform. */
  ghost predicate HeldAt(c: A.Config, k: A.Keyer, p: int) {
    if p < c.dit then k.phase.InDit? && k.keyOut == DIT && k.duration == c.dit - p
    else if p < c.dit + c.ies then k.phase.DitSpace? && k.keyOut == OFF && k.duration == c.dit + c.ies - p
    else if p < c.dit + c.ies + c.dah
    then k.phase.InDah? && k.keyOut == DAH && k.duration == c.dit + c.ies + c.dah - p
    else k.phase.DahSpace? && k.keyOut == OFF && k.duration == Period(TimesOf(c)) - p
  }

  lemma HeldStep(c: A.Config, k: A.Keyer, p: int)
    requires Positive(TimesOf(c)) && 0 <= p < Period(TimesOf(c)) && HeldAt(c, k, p)
    ensures HeldAt(c, A.Next(c, k, BOTH, 1), if p + 1 == Period(TimesOf(c)) then 0 else p + 1)
  {
  }

  lemma {:induction false} HeldPhase(c: A.Config, n: nat)
    requires Positive(TimesOf(c))
    ensures HeldAt(c, Held(c, n), n % Period(TimesOf(c)))
  {
    var period := Period(TimesOf(c));
    if n > 0 {
      HeldPhase(c, n - 1);
      NextPhase(n - 1, period);
      HeldStep(c, Held(c, n - 1), (n - 1) % period);
    } else {
      ModOf(0, 0, period);
    }
  }

  lemma HeldIsSqueezed(c: A.Config, n: nat)
    requires Positive(TimesOf(c))
    ensures HeldOutput(c, n) == Squeezed(TimesOf(c), n)
  {
    HeldPhase(c, n);
  }

  /**
   At every tick n: ad5dz and k1el alike, nd7pa one call later, and dttsp, which begins with the dah, from the
   dit that follows it.  Whatever the mode, the memories, the swap of the paddles and the automatic spaces.
   */
  lemma FourKeyersAgree(a: A.Config, k: K.Config, n: N.Config, d: D.Config, t: Times, i: nat)
    requires Positive(t) && TimesOf(a) == k.times == n.times == t
    requires D.Sensible(d) && D.TimesOf(d) == t
    ensures var out := Squeezed(t, i);
      && HeldOutput(a, i) == out
      && K.HeldOutput(k, i) == out
      && N.HeldOutput(n, i + 1) == out && N.HeldOutput(n, 0) == OFF
      && D.HeldOutput(d, i + 4 * d.ditlen) == out
  {
    HeldIsSqueezed(a, i);
    K.HeldIsSqueezed(k, i);
    N.HeldIsSqueezed(n, i);
    N.StartsWithOff(n);
    FromTheDit(d, t, i, i + 4 * d.ditlen);
  }

  lemma FromTheDit(d: D.Config, t: Times, i: nat, j: nat)
    requires Positive(t) && D.Sensible(d) && D.TimesOf(d) == t && j == i + 4 * d.ditlen
    ensures D.HeldOutput(d, j) == Squeezed(t, i)
  {
    D.HeldIsSqueezed(d, j);
    SqueezedRepeats(t, i);
    assert Period(t) == 6 * d.ditlen;
  }

  lemma SqueezedRepeats(t: Times, i: nat)
    requires Positive(t)
    ensures Squeezed(t, i + Period(t)) == Squeezed(t, i)
  {
    var q, r := i / Period(t), i % Period(t);
    assert i + Period(t) == (q + 1) * Period(t) + r;
    ModOf(q + 1, r, Period(t));
  }

  /** The usual times: at weight 50, with dah three dits and one dit of space. */
  lemma StandardTimes(d: D.Config)
    requires 0 < d.ditlen && d.weight == 50
    ensures D.Sensible(d) && D.TimesOf(d) == Times(d.ditlen, 3 * d.ditlen, d.ditlen)
  {
  }
}
