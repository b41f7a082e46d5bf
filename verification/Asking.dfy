/**
 What ties the elements on the key line to the paddles: told on the levels at the paddle inputs as they are, and on
 the outputs, call by call.
 */
module Asking {
  import opened Morse
  import opened Keying
  import opened Paddles

  /** The paddle for the element is down: the other one if they are swapped. */
  predicate Pressed(swapped: bool, raw: Keys, e: Element) {
    match e
    case Dit => if swapped then raw.dah else raw.dit
    case Dah => if swapped then raw.dit else raw.dah
  }

  /** The paddle for the element is down, and the other is not. */
  predicate Alone(swapped: bool, raw: Keys, e: Element) {
    Pressed(swapped, raw, e) && !(raw.dit && raw.dah)
  }

  /** The paddle for the element is down at one of the calls. */
  ghost predicate PressedIn(swapped: bool, raws: seq<Keys>, e: Element) {
    exists j :: 0 <= j < |raws| && Pressed(swapped, raws[j], e)
  }

  lemma PressedInMore(swapped: bool, raws: seq<Keys>, last: Keys, e: Element)
    ensures PressedIn(swapped, raws + [last], e) <==> PressedIn(swapped, raws, e) || Pressed(swapped, last, e)
  {
    var more := raws + [last];
    if PressedIn(swapped, raws, e) {
      var j :| 0 <= j < |raws| && Pressed(swapped, raws[j], e);
      assert more[j] == raws[j];
    }
    if Pressed(swapped, last, e) {
      assert more[|raws|] == last;
    }
  }

  /** A mark begins with this output. */
  predicate Begins(before: int, out: int) {
    out != OFF && out != before
  }

  /** The calls that began a mark, in order. */
  function Began(outs: seq<int>): seq<nat> {
    if outs == [] then [] else
      var n := |outs| - 1;
      Began(outs[..n]) + if Begins(FinalOutput(outs[..n]), outs[n]) then [n] else []
  }

  ghost predicate BeganAt(outs: seq<int>, began: seq<nat>, segs: seq<Segment>, k: nat) {
    && k < |began| == |segs| && began[k] < |outs| && outs[began[k]] == Code(segs[k].key)
    && (k > 0 ==> began[k - 1] < began[k])
  }

  /** They are those of the marks on the tape, one for each. */
  lemma {:induction false} BeganOnTape(outs: seq<int>)
    requires Outputs(outs)
    ensures var t := Measure(outs);
      && |Began(outs)| == |t.segs| && EndsWith(t, FinalOutput(outs))
      && forall k :: 0 <= k < |t.segs| ==> BeganAt(outs, Began(outs), t.segs, k)
  {
    if outs != [] {
      var n := |outs| - 1;
      BeganOnTape(outs[..n]);
      var t, began := Measure(outs[..n]), Began(outs[..n]);
      TapeGrows(t, FinalOutput(outs[..n]), outs[n]);
      forall k | 0 <= k < |Measure(outs).segs| ensures BeganAt(outs, Began(outs), Measure(outs).segs, k) {
        if k < |began| {
          assert BeganAt(outs[..n], began, t.segs, k);
        } else {
          assert k > 0 ==> BeganAt(outs[..n], began, t.segs, k - 1);
        }
      }
    }
  }

  lemma TapeGrows(t: Tape, before: int, out: int)
    requires EndsWith(t, before) && IsOutput(out)
    ensures var t' := Extend(t, out);
      && EndsWith(t', out)
      && |t'.segs| == |t.segs| + (if Begins(before, out) then 1 else 0)
      && (forall k :: 0 <= k < |t.segs| ==> t'.segs[k].key == t.segs[k].key)
      && (Begins(before, out) ==> out == Code(Last(t').key))
  {
  }

  /** The paddle for the element is down at some call from lo on and before hi. */
  ghost predicate PressedBetween(swapped: bool, raws: seq<Keys>, lo: int, hi: int, e: Element) {
    exists j :: 0 <= j < |raws| && lo <= j < hi && Pressed(swapped, raws[j], e)
  }

  lemma PressedBetweenMore(swapped: bool, raws: seq<Keys>, raw: Keys, lo: int, hi: int, e: Element)
    ensures PressedBetween(swapped, raws, lo, hi, e) ==> PressedBetween(swapped, raws + [raw], lo, hi, e)
    ensures Pressed(swapped, raw, e) && lo <= |raws| < hi ==> PressedBetween(swapped, raws + [raw], lo, hi, e)
  {
    var all := raws + [raw];
    if PressedBetween(swapped, raws, lo, hi, e) {
      var j :| 0 <= j < |raws| && lo <= j < hi && Pressed(swapped, raws[j], e);
      assert all[j] == raws[j];
    }
    assert all[|raws|] == raw;
  }

  /**
   Mark k is asked for: the paddle for its element is down at some call after the one that began the mark before
   and no later than the one that began it.  An output may follow the call that it is due to by `late` calls.
   */
  ghost predicate AskedAt(swapped: bool, raws: seq<Keys>, began: seq<nat>, segs: seq<Segment>, late: nat, k: nat) {
    && k < |began| == |segs|
    && PressedBetween(swapped, raws, if k > 0 then began[k - 1] + 1 - late else 0, began[k] + 1 - late, segs[k].key)
  }

  ghost predicate AllAsked(swapped: bool, raws: seq<Keys>, outs: seq<int>, late: nat) {
    && Outputs(outs) && |outs| == |raws| && |Began(outs)| == |Measure(outs).segs|
    && forall k :: 0 <= k < |Measure(outs).segs| ==> AskedAt(swapped, raws, Began(outs), Measure(outs).segs, late, k)
  }

  // ---- how a keyer is shown to keep to that ----

  /** The first call after the one that began the last mark, or the first of all. */
  function Since(outs: seq<int>, late: nat): int {
    var began := Began(outs);
    if began == [] then 0 else began[|began| - 1] + 1 - late
  }

  /** The paddle for the element has been down since the call that began the last mark. */
  ghost predicate AskedSince(swapped: bool, raws: seq<Keys>, outs: seq<int>, late: nat, e: Element) {
    PressedBetween(swapped, raws, Since(outs, late), |raws|, e)
  }

  lemma {:induction false} BeganBefore(outs: seq<int>)
    ensures Since(outs, 0) <= |outs|
  {
    if outs != [] {
      BeganBefore(outs[..|outs| - 1]);
    }
  }

  function ElementOf(out: int): Element {
    if out == DIT then Dit else Dah
  }

  lemma MoreBegan(outs: seq<int>, out: int, outs': seq<int>)
    requires outs' == outs + [out]
    ensures Began(outs') == Began(outs) + if Begins(FinalOutput(outs), out) then [|outs|] else []
  {
    assert outs'[..|outs|] == outs && outs'[|outs|] == out;
  }

  lemma MoreSince(outs: seq<int>, out: int, outs': seq<int>, late: nat)
    requires outs' == outs + [out]
    ensures Since(outs', late) == if Begins(FinalOutput(outs), out) then |outs'| - late else Since(outs, late)
  {
    MoreBegan(outs, out, outs');
    LastSince(Began(outs), Began(outs'), |outs|, Begins(FinalOutput(outs), out));
  }

  lemma LastSince(began: seq<nat>, began': seq<nat>, n: nat, begins: bool)
    requires began' == began + if begins then [n] else []
    ensures begins ==> began' != [] && began'[|began'| - 1] == n
    ensures !begins ==> began' == began
  {
  }

  lemma MoreSegs(outs: seq<int>, out: int, outs': seq<int>, segs: seq<Segment>, segs': seq<Segment>)
    requires Outputs(outs) && IsOutput(out) && outs' == outs + [out]
    requires segs == Measure(outs).segs && segs' == Measure(outs').segs
    ensures |segs'| == |segs| + (if Begins(FinalOutput(outs), out) then 1 else 0)
    ensures forall k :: 0 <= k < |segs| ==> segs'[k].key == segs[k].key
    ensures Begins(FinalOutput(outs), out) ==> segs'[|segs|].key == ElementOf(out)
  {
    assert outs'[..|outs|] == outs;
    BeganOnTape(outs);
    TapeGrows(Measure(outs), FinalOutput(outs), out);
  }

  lemma AskedStays(swapped: bool, raws: seq<Keys>, raw: Keys, began: seq<nat>, segs: seq<Segment>, began': seq<nat>,
                   segs': seq<Segment>, late: nat, k: nat)
    requires AskedAt(swapped, raws, began, segs, late, k) && began <= began' && |began'| == |segs'|
    requires segs'[k].key == segs[k].key
    ensures AskedAt(swapped, raws + [raw], began', segs', late, k)
  {
    var lo, hi := if k > 0 then began[k - 1] + 1 - late else 0, began[k] + 1 - late;
    PressedBetweenMore(swapped, raws, raw, lo, hi, segs[k].key);
  }

  /** One more call, which may begin a mark that is asked for. */
  lemma MoreAsked(swapped: bool, raws: seq<Keys>, raw: Keys, outs: seq<int>, out: int, outs': seq<int>, late: nat)
    requires AllAsked(swapped, raws, outs, late) && IsOutput(out) && outs' == outs + [out]
    requires Begins(FinalOutput(outs), out) ==>
      PressedBetween(swapped, raws + [raw], Since(outs, late), |raws| + 1 - late, ElementOf(out))
    ensures AllAsked(swapped, raws + [raw], outs', late)
  {
    MoreBegan(outs, out, outs');
    assert outs'[..|outs|] == outs;
    MoreSegs(outs, out, outs', Measure(outs).segs, Measure(outs').segs);
    MoreOutputs(outs, out);
    OneMoreAsked(swapped, raws, raw, Began(outs), Measure(outs).segs, Began(outs'), Measure(outs').segs, late,
                 if Begins(FinalOutput(outs), out) then [|outs|] else []);
  }

  lemma MoreOutputs(outs: seq<int>, out: int)
    requires Outputs(outs) && IsOutput(out)
    ensures Outputs(outs + [out])
  {
  }

  lemma OneMoreAsked(swapped: bool, raws: seq<Keys>, raw: Keys, began: seq<nat>, segs: seq<Segment>, began': seq<nat>,
                     segs': seq<Segment>, late: nat, added: seq<nat>)
    requires |began| == |segs| && began' == began + added && |added| <= 1 && |segs'| == |segs| + |added|
    requires forall k :: 0 <= k < |segs| ==> AskedAt(swapped, raws, began, segs, late, k)
    requires forall k :: 0 <= k < |segs| ==> segs'[k].key == segs[k].key
    requires added != [] ==>
      PressedBetween(swapped, raws + [raw], if began == [] then 0 else began[|began| - 1] + 1 - late, added[0] + 1 - late,
                     segs'[|segs|].key)
    ensures forall k :: 0 <= k < |segs'| ==> AskedAt(swapped, raws + [raw], began', segs', late, k)
  {
    forall k | 0 <= k < |segs'| ensures AskedAt(swapped, raws + [raw], began', segs', late, k) {
      if k < |segs| {
        AskedStays(swapped, raws, raw, began, segs, began', segs', late, k);
      }
    }
  }

  // ---- keyers with a memory for each paddle ----

  predicate Has(mem: Keys, e: Element) {
    if e.Dit? then mem.dit else mem.dah
  }

  /** What is remembered has been pressed since the call that began the last mark. */
  ghost predicate Remembered(swapped: bool, raws: seq<Keys>, outs: seq<int>, late: nat, mem: Keys) {
    forall e: Element :: Has(mem, e) ==> AskedSince(swapped, raws, outs, late, e)
  }

  lemma NowOrBefore(swapped: bool, raws: seq<Keys>, raw: Keys, outs: seq<int>, late: nat, e: Element)
    requires AskedSince(swapped, raws, outs, late, e) || Pressed(swapped, raw, e)
    ensures PressedBetween(swapped, raws + [raw], Since(outs, late), |raws| + 1, e) || Since(outs, late) > |raws|
  {
    PressedBetweenMore(swapped, raws, raw, Since(outs, late), |raws|, e);
    PressedBetweenMore(swapped, raws, raw, Since(outs, late), |raws| + 1, e);
  }

  /** A call that begins a mark only for a paddle remembered or down, and remembers nothing that was not pressed. */
  lemma MemoryStep(swapped: bool, raws: seq<Keys>, raw: Keys, outs: seq<int>, out: int, outs': seq<int>, mem: Keys,
                   mem': Keys)
    requires AllAsked(swapped, raws, outs, 0) && Remembered(swapped, raws, outs, 0, mem)
    requires IsOutput(out) && outs' == outs + [out]
    requires Begins(FinalOutput(outs), out) ==> mem' == UP
    requires Begins(FinalOutput(outs), out) ==> Has(mem, ElementOf(out)) || Pressed(swapped, raw, ElementOf(out))
    requires forall e: Element :: Has(mem', e) ==> Has(mem, e) || Pressed(swapped, raw, e)
    ensures AllAsked(swapped, raws + [raw], outs', 0) && Remembered(swapped, raws + [raw], outs', 0, mem')
  {
    BeganBefore(outs);
    MoreSince(outs, out, outs', 0);
    forall e: Element | AskedSince(swapped, raws, outs, 0, e) || Pressed(swapped, raw, e)
      ensures PressedBetween(swapped, raws + [raw], Since(outs, 0), |raws| + 1, e)
    {
      NowOrBefore(swapped, raws, raw, outs, 0, e);
    }
    MoreAsked(swapped, raws, raw, outs, out, outs', 0);
  }
}
