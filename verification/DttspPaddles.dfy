/**
 dspmath/iambic_dttsp.h, told by the paddles: what follows an element, and what becomes of one that waits for a
 delay.
 */
module DttspPaddles {
  import opened Morse
  import opened Keying
  import opened Paddles
  import opened IambicDttsp

  predicate Down(key: Keys, e: Element) {
    match e
    case Dit => key.dit
    case Dah => key.dah
  }

  /** The memory for an element is wanted. */
  predicate Wanted(c: Config, e: Element) {
    match e
    case Dit => c.wantDitMem
    case Dah => c.wantDahMem
  }

  /** The paddle for the element goes down at one of the calls, having been up at the call before. */
  ghost predicate Tapped(before: Keys, keys: seq<Keys>, e: Element) {
    exists i :: TappedAt(before, keys, e, i)
  }

  ghost predicate TappedAt(before: Keys, keys: seq<Keys>, e: Element, i: int) {
    0 <= i < |keys| && Down(keys[i], e) && !Down(if i == 0 then before else keys[i - 1], e)
  }

  function LastOf(before: Keys, keys: seq<Keys>): Keys {
    if keys == [] then before else keys[|keys| - 1]
  }

  lemma TappedMore(before: Keys, keys: seq<Keys>, last: Keys, e: Element)
    ensures Tapped(before, keys + [last], e) <==>
      Tapped(before, keys, e) || (Down(last, e) && !Down(LastOf(before, keys), e))
  {
    var more := keys + [last];
    if Tapped(before, keys, e) {
      var i :| TappedAt(before, keys, e, i);
      assert TappedAt(before, more, e, i);
    }
    if Down(last, e) && !Down(LastOf(before, keys), e) {
      assert TappedAt(before, more, e, |keys|);
    }
    if Tapped(before, more, e) {
      var i :| TappedAt(before, more, e, i);
      assert i < |keys| ==> TappedAt(before, keys, e, i);
    }
  }

  /** Both paddles were down, and have both been up since they last were. */
  ghost predicate LetGo(start: Squeeze, keys: seq<Keys>) {
    || (BOTH !in keys && (start == PaddlesReleased || (start == PaddlesSqueezed && UP in keys)))
    || LetGoLast(keys)
  }

  ghost predicate LetGoLast(keys: seq<Keys>) {
    exists i :: LetGoAfter(keys, i)
  }

  ghost predicate LetGoAfter(keys: seq<Keys>, i: int) {
    0 <= i < |keys| && keys[i] == BOTH && BOTH !in keys[i + 1..] && UP in keys[i + 1..]
  }

  lemma {:induction false} LastBoth(keys: seq<Keys>) returns (i: nat)
    requires BOTH in keys
    ensures i < |keys| && keys[i] == BOTH && BOTH !in keys[i + 1..]
  {
    var n := |keys| - 1;
    if keys[n] == BOTH {
      i := n;
    } else {
      assert keys == keys[..n] + [keys[n]];
      i := LastBoth(keys[..n]);
      assert keys[i + 1..] == keys[..n][i + 1..] + [keys[n]];
    }
  }

  lemma LetGoAfterMore(keys: seq<Keys>, last: Keys, i: int)
    requires 0 <= i < |keys| && keys[i] == BOTH && BOTH !in keys[i + 1..]
    ensures LetGoAfter(keys + [last], i) <==> last != BOTH && (UP in keys[i + 1..] || last == UP)
  {
    assert (keys + [last])[i + 1..] == keys[i + 1..] + [last];
  }

  lemma LetGoAfterLess(keys: seq<Keys>, last: Keys, i: int)
    requires LetGoAfter(keys + [last], i)
    ensures last != BOTH && 0 <= i < |keys| && keys[i] == BOTH && BOTH !in keys[i + 1..]
    ensures last != UP ==> LetGoAfter(keys, i)
  {
    if i < |keys| {
      assert (keys + [last])[i + 1..] == keys[i + 1..] + [last];
    }
  }

  lemma LetGoLastMore(keys: seq<Keys>, last: Keys)
    ensures LetGoLast(keys + [last]) <==> last != BOTH && (LetGoLast(keys) || (last == UP && BOTH in keys))
  {
    if LetGoLast(keys + [last]) {
      var i :| LetGoAfter(keys + [last], i);
      LetGoAfterLess(keys, last, i);
    } else if last != BOTH && LetGoLast(keys) {
      var i :| LetGoAfter(keys, i);
      LetGoAfterMore(keys, last, i);
    } else if last == UP && BOTH in keys {
      var i := LastBoth(keys);
      LetGoAfterMore(keys, last, i);
    }
  }

  lemma LetGoMore(start: Squeeze, keys: seq<Keys>, last: Keys)
    ensures LetGo(start, keys + [last]) <==>
      last != BOTH && (LetGo(start, keys) || (last == UP && (start != NoSqueeze || BOTH in keys)))
  {
    LetGoLastMore(keys, last);
    assert forall key: Keys :: key in keys + [last] <==> key in keys || key == last;
  }

  /** What the keyer has noted of the paddles, inside an element of e that was in state k when they were in `keys`. */
  ghost predicate Noted(c: Config, k: Keyer, keys: seq<Keys>, e: Element, r: Keyer) {
    && r.prev == LastOf(k.prev, keys)
    && (r.altrn <==> k.altrn || (Wanted(c, Other(e)) && Tapped(k.prev, keys, Other(e))))
    && (r.iamb == NoSqueeze <==> k.iamb == NoSqueeze && BOTH !in keys)
    && (r.iamb == PaddlesReleased <==> LetGo(k.iamb, keys))
  }

  lemma NoteStep(c: Config, r: Keyer, key: Keys, e: Element, beep: int, elem: int)
    requires InElement(r, e, beep, elem) && 1 < elem
    ensures var r' := Next(c, r, key, 1);
      && r'.prev == key
      && (r'.altrn <==> r.altrn || (Wanted(c, Other(e)) && Down(key, Other(e)) && !Down(r.prev, Other(e))))
      && r'.iamb == if key == BOTH then PaddlesSqueezed
                    else if key == UP && r.iamb == PaddlesSqueezed then PaddlesReleased
                    else r.iamb
  {
  }

  lemma {:induction false} PaddlesNoted(c: Config, k: Keyer, keys: seq<Keys>, e: Element, beep: int, elem: int)
    requires InElement(k, e, beep, elem) && |keys| < elem
    ensures Noted(c, k, keys, e, Run(c, k, keys))
  {
    if keys != [] {
      var rest, last := keys[..|keys| - 1], keys[|keys| - 1];
      assert keys == rest + [last];
      PaddlesNoted(c, k, rest, e, beep, elem);
      SqueezeIsKept(c, k, rest, e, beep, elem);
      NoteStep(c, Run(c, k, rest), last, e, beep - |rest|, elem - |rest|);
      TappedMore(k.prev, rest, last, Other(e));
      LetGoMore(k.iamb, rest, last);
    }
  }

  /**
   What follows an element, by the paddles during it and the call that ends it: the other one if both are down, or its
   paddle was tapped and its memory is wanted and no squeeze was let go, or if in mode B one was; or else, of the
   paddles that are down now, the dah's before the dit's.
   */
  ghost function Follower(c: Config, k: Keyer, keys: seq<Keys>, key: Keys, e: Element): Current {
    var letGo := LetGo(k.iamb, keys + [key]);
    var middle := k.psqam || SqueezedPast(k.midl, keys);
    if key == BOTH
       || ((k.altrn || (Wanted(c, Other(e)) && Tapped(k.prev, keys, Other(e)))) && !letGo)
       || (letGo && c.modeB && (!c.needMidElement || middle))
    then Playing(Other(e))
    else if key.dah then Playing(Dah) else if key.dit then Playing(Dit) else Nothing
  }

  /** A current element at its beginning, or none. */
  ghost predicate Fresh(c: Config, k: Keyer, next: Current) {
    && k.curr == next && k.iamb == NoSqueeze && !k.psqam
    && (next.Playing? ==> k.beep == Beep(c, next.e) && k.elem == Whole(c, next.e) && k.dlay <= 0)
    && (next.Playing? ==> k.midl == Beep(c, next.e) / 2)
  }

  /** The other paddle goes down at the call that begins the element. */
  predicate TappedNow(c: Config, before: Keys, key: Keys, next: Current) {
    next.Playing? && Wanted(c, Other(next.e)) && Down(key, Other(next.e)) && !Down(before, Other(next.e))
  }

  lemma EndCall(c: Config, r: Keyer, key: Keys, e: Element, beep: int, next: Current)
    requires Sensible(c) && InElement(r, e, beep, 1)
    requires var iamb := if key == BOTH then PaddlesSqueezed
                         else if key == UP && r.iamb == PaddlesSqueezed then PaddlesReleased else r.iamb;
      next == if key == BOTH || (r.altrn && iamb != PaddlesReleased)
                 || (iamb == PaddlesReleased && c.modeB && (!c.needMidElement || r.psqam))
              then Playing(Other(e)) else if key.dah then Playing(Dah) else if key.dit then Playing(Dit) else Nothing
    ensures Fresh(c, Next(c, r, key, 1), next)
    ensures Output(Next(c, r, key, 1)) == if next.Playing? then Code(next.e) else OFF
    ensures Next(c, r, key, 1).altrn == TappedNow(c, r.prev, key, next)
  {
  }

  /** Exactly what follows an element, whatever the paddles do. */
  lemma AfterElement(c: Config, k: Keyer, keys: seq<Keys>, key: Keys, e: Element)
    requires Sensible(c) && InElement(k, e, k.beep, k.elem) && |keys| + 1 == k.elem
    ensures var r, next := Run(c, k, keys + [key]), Follower(c, k, keys, key, e);
      && Fresh(c, r, next) && Output(r) == (if next.Playing? then Code(next.e) else OFF)
      && r.altrn == TappedNow(c, LastOf(k.prev, keys), key, next)
  {
    PaddlesNoted(c, k, keys, e, k.beep, k.elem);
    MiddleIsNoted(c, k, keys, e, k.beep, k.elem);
    SqueezeIsKept(c, k, keys, e, k.beep, k.elem);
    LetGoMore(k.iamb, keys, key);
    EndCall(c, Run(c, k, keys), key, e, k.beep - |keys|, Follower(c, k, keys, key, e));
    assert (keys + [key])[..|keys|] == keys;
  }

  // ---- the delays ----

  /**
   With both paddles up at the end of an element and nothing to follow it, automatic spacing begins a delay of
   two dits.
   */
  lemma LetterDelayBegins(c: Config, r: Keyer, e: Element, beep: int)
    requires Sensible(c) && InElement(r, e, beep, 1)
    ensures var r' := Next(c, r, UP, 1);
      r'.curr == Nothing ==> if c.autoChar then r'.dlay == 2 * c.ditlen && r'.delay == CharSpacing
                             else r'.dlay <= 0 && r'.delay == NoDelay
  {
  }

  /** When it ends and nothing waits, it is followed by one of four more dits, for a word, if that is automatic too. */
  lemma WordDelayFollows(c: Config, k: Keyer, key: Keys)
    requires Sensible(c) && k.curr == Nothing && k.dlay == 1 && k.delay == CharSpacing && k.elem <= 0
    ensures var r := Next(c, k, key, 1);
      if c.autoWord then r.dlay == 4 * c.ditlen && r.delay == WordSpacing && Output(r) == OFF
      else r.dlay <= 0 && r.delay == NoDelay
  {
  }

  /** After that there is none. */
  lemma DelayEnds(c: Config, k: Keyer, key: Keys)
    requires Sensible(c) && k.curr == Nothing && k.dlay == 1 && k.delay == WordSpacing && k.elem <= 0
    ensures var r := Next(c, k, key, 1);
      r.dlay <= 0 && r.delay == NoDelay
  {
  }

  // ---- an element that waits for a delay to end ----

  /**
   Before the delay ends an element that waits is given up, beep and all, if and only if both paddles are up and its
   memory is not wanted.
   */
  lemma GivenUpIff(c: Config, k: Keyer, key: Keys, e: Element)
    requires Sensible(c) && k.curr == Playing(e) && 1 < k.dlay && k.beep == Beep(c, e) && k.elem == Whole(c, e)
    ensures var r := Next(c, k, key, 1);
      && r.dlay == k.dlay - 1 && Output(r) == OFF
      && if key == UP && !Wanted(c, e) then r.curr == Nothing && r.beep == 0 && r.elem == 0
         else r.curr == Playing(e) && r.beep == k.beep && r.elem == k.elem
  {
  }

  /** A paddle pressed while nothing waits has its own element wait, the dah's before the dit's. */
  lemma WaitsFor(c: Config, k: Keyer, key: Keys)
    requires Sensible(c) && k.curr == Nothing && 1 < k.dlay
    ensures var r := Next(c, k, key, 1);
      var next := if key.dah then Playing(Dah) else if key.dit then Playing(Dit) else Nothing;
      && r.dlay == k.dlay - 1 && Output(r) == OFF && r.curr == next
      && (next.Playing? ==> r.beep == Beep(c, next.e) && r.elem == Whole(c, next.e))
  {
  }

  /** With no delay running it starts at once. */
  lemma StartsAtOnce(c: Config, k: Keyer, key: Keys)
    requires Sensible(c) && k.curr == Nothing && k.dlay <= 0 && k.delay == NoDelay && k.beep <= 0
    ensures var r := Next(c, k, key, 1);
      var next := if key.dah then Playing(Dah) else if key.dit then Playing(Dit) else Nothing;
      && r.curr == next && Output(r) == (if next.Playing? then Code(next.e) else OFF)
      && (next.Playing? ==> r.beep == Beep(c, next.e) && r.elem == Whole(c, next.e))
  {
  }
}
