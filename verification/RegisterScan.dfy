/** sdrtcl/hl_udp_jack.c, _txiqscan: which control register goes out with each USB frame. */
module RegisterScan {
  import opened RingArithmetic
  import opened Remainders

  /** Registers are numbered up to this. */
  const LAST := 0x3f

  /** Is the register sent, with nRx receivers?  The others are passed over. */
  predicate Sent(nRx: int, c0: nat) {
    || c0 in {0x00, 0x01, 0x09, 0x0a, 0x0f, 0x10}
    || (0x02 <= c0 <= 0x08 && c0 - 0x01 <= nRx)
    || (0x12 <= c0 <= 0x16 && c0 - 0x12 + 8 <= nRx)
  }

  /** The first register at the index or after it, or else the first of all. */
  ghost predicate IsNext(nRx: int, index: nat, c0: nat) {
    && Sent(nRx, c0)
    && (forall c: nat :: index <= c && (c < c0 || c0 < index) ==> !Sent(nRx, c))
    && (index <= c0 || c0 == 0)
  }

  lemma OneIsNext(nRx: int, index: nat, a: nat, b: nat)
    requires IsNext(nRx, index, a) && IsNext(nRx, index, b)
    ensures a == b
  {
  }

  /** How far the loop can still go. */
  function StepsLeft(index: nat): nat {
    if index == 0 then 0 else if index > LAST then 1 else 2 + LAST - index
  }

  /** The loop for one frame: it ends whatever the index, and leaves it just past the register chosen. */
  method NextRegister(nRx: int, index: nat) returns (c0: nat, index': nat)
    requires index < WRAP
    ensures IsNext(nRx, index, c0) && index' == c0 + 1 && c0 <= LAST
  {
    index' := index;
    ghost var passed := false;
    while true
      invariant index' < WRAP
      invariant if passed then index' == 0 && (forall c: nat :: index <= c ==> !Sent(nRx, c))
                else index <= index' && (forall c: nat :: index <= c < index' ==> !Sent(nRx, c))
      decreases StepsLeft(index'), !passed
    {
      c0 := index';
      index' := (index' + 1) % WRAP;
      if Sent(nRx, c0) { return; }
      if c0 > LAST {
        index' := 0;
        passed := true;
      }
    }
    assert false;
  }

  // ---- the order they go out in ----

  function Low(nRx: nat): nat {
    if nRx < 7 then nRx else 7
  }

  /** Register number j of those that are sent. */
  function Nth(nRx: nat, j: nat): nat {
    var low := Low(nRx);
    if j < 2 + low then j
    else if j == 2 + low then 0x09
    else if j == 3 + low then 0x0a
    else if j == 4 + low then 0x0f
    else if j == 5 + low then 0x10
    else 0x12 + (j - low - 6)
  }

  function Count(nRx: nat): nat {
    nRx + 6
  }

  predicate Possible(nRx: int) {
    1 <= nRx <= 12
  }

  lemma NthIncreases(nRx: nat, j: nat, k: nat)
    requires Possible(nRx) && j < k < Count(nRx)
    ensures Nth(nRx, j) < Nth(nRx, k) && Sent(nRx, Nth(nRx, j)) && Sent(nRx, Nth(nRx, k))
  {
  }

  /** Every register sent is one of those counted. */
  lemma SentIsNth(nRx: nat, c0: nat) returns (j: nat)
    requires Possible(nRx) && Sent(nRx, c0)
    ensures j < Count(nRx) && Nth(nRx, j) == c0
  {
    var low := Low(nRx);
    if c0 < 2 + low {
      j := c0;
    } else if c0 == 0x09 {
      j := 2 + low;
    } else if c0 == 0x0a {
      j := 3 + low;
    } else if c0 == 0x0f {
      j := 4 + low;
    } else if c0 == 0x10 {
      j := 5 + low;
    } else {
      j := c0 - 0x12 + low + 6;
    }
  }

  /** The registers sent. */
  ghost function AllSent(nRx: nat): set<nat> {
    set c0: nat | c0 <= LAST && Sent(nRx, c0)
  }

  ghost function FirstSent(nRx: nat, n: nat): set<nat> {
    set j: nat | j < n :: Nth(nRx, j)
  }

  lemma {:induction false} FirstCounted(nRx: nat, n: nat)
    requires Possible(nRx) && n <= Count(nRx)
    ensures |FirstSent(nRx, n)| == n
  {
    if n > 0 {
      FirstCounted(nRx, n - 1);
      forall j: nat | j < n - 1 ensures Nth(nRx, j) != Nth(nRx, n - 1) {
        NthIncreases(nRx, j, n - 1);
      }
      assert FirstSent(nRx, n) == FirstSent(nRx, n - 1) + {Nth(nRx, n - 1)};
    } else {
      assert FirstSent(nRx, 0) == {};
    }
  }

  /** With n receivers, n+6 registers are sent, one for each number that is counted. */
  lemma SentAreCounted(nRx: nat)
    requires Possible(nRx)
    ensures AllSent(nRx) == FirstSent(nRx, Count(nRx)) && |AllSent(nRx)| == nRx + 6
  {
    forall c0 | c0 in AllSent(nRx) ensures c0 in FirstSent(nRx, Count(nRx)) {
      var j := SentIsNth(nRx, c0);
    }
    forall j: nat | j < Count(nRx) ensures Nth(nRx, j) in AllSent(nRx) {
      NthIncreases(nRx, 0, if j == 0 then 1 else j);
    }
    FirstCounted(nRx, Count(nRx));
  }

  lemma NextInOrder(nRx: nat, j: nat)
    requires Possible(nRx) && j < Count(nRx)
    ensures IsNext(nRx, Nth(nRx, j) + 1, Nth(nRx, if j + 1 == Count(nRx) then 0 else j + 1))
  {
    var k := if j + 1 == Count(nRx) then 0 else j + 1;
    forall c: nat | Nth(nRx, j) + 1 <= c && (c < Nth(nRx, k) || Nth(nRx, k) < Nth(nRx, j) + 1) ensures !Sent(nRx, c) {
      if Sent(nRx, c) {
        var i := SentIsNth(nRx, c);
        if i < j {
          NthIncreases(nRx, i, j);
        } else if j + 1 < i && k != 0 {
          NthIncreases(nRx, k, i);
        }
      }
    }
  }

  // ---- runs of frames ----

  /** The registers sent with successive frames. */
  ghost predicate IsScan(nRx: int, index: nat, registers: seq<nat>) {
    forall k :: 0 <= k < |registers| ==> FrameAt(nRx, index, registers, k)
  }

  ghost predicate FrameAt(nRx: int, index: nat, registers: seq<nat>, k: nat) {
    k < |registers| && IsNext(nRx, if k == 0 then index else registers[k - 1] + 1, registers[k])
  }

  /** The place k frames after place j, going round. */
  function Place(j: nat, k: nat, m: nat): (p: nat)
    requires j < m
    ensures p < m
  {
    if k == 0 then j else
      var p := Place(j, k - 1, m);
      if p + 1 == m then 0 else p + 1
  }

  lemma {:induction false} PlaceIsRemainder(j: nat, k: nat, m: nat)
    requires j < m
    ensures Place(j, k, m) == (j + k) % m
  {
    if k > 0 {
      PlaceIsRemainder(j, k - 1, m);
      NextPhase(j + k - 1, m);
    } else {
      ModOf(0, j, m);
    }
  }

  /** Successive frames go through the registers in increasing order, round and round. */
  lemma {:induction false} ScanInOrder(nRx: nat, index: nat, registers: seq<nat>, j: nat, k: nat)
    requires Possible(nRx) && IsScan(nRx, index, registers) && k < |registers|
    requires j < Count(nRx) && registers[0] == Nth(nRx, j)
    ensures registers[k] == Nth(nRx, Place(j, k, Count(nRx)))
  {
    assert FrameAt(nRx, index, registers, k);
    if k > 0 {
      ScanInOrder(nRx, index, registers, j, k - 1);
      NextInOrder(nRx, Place(j, k - 1, Count(nRx)));
      OneIsNext(nRx, registers[k - 1] + 1, registers[k], Nth(nRx, Place(j, k, Count(nRx))));
    }
  }

  /**
   Every register is refreshed: from any index, among any n+6 frames in a row, a register that is sent goes
   out, and it does not go out again before n+6 frames have passed.
   */
  lemma EachOnceEveryCycle(nRx: nat, index: nat, registers: seq<nat>, k: nat, c0: nat) returns (i: nat)
    requires Possible(nRx) && IsScan(nRx, index, registers) && k + Count(nRx) <= |registers|
    requires Sent(nRx, c0)
    ensures k <= i < k + Count(nRx) && registers[i] == c0
    ensures forall i' :: k <= i' < k + Count(nRx) && registers[i'] == c0 ==> i' == i
  {
    var m := Count(nRx);
    assert FrameAt(nRx, index, registers, 0);
    var j := SentIsNth(nRx, registers[0]);
    var p := SentIsNth(nRx, c0);
    var here := Place(j, k, m);
    i := k + Onwards(here, p, m);
    Onward(j, k, i - k, m);
    ScanInOrder(nRx, index, registers, j, i);
    forall i' | k <= i' < k + m && registers[i'] == c0 ensures i' == i {
      ScanInOrder(nRx, index, registers, j, i');
      SamePlace(nRx, p, Place(j, i', m));
      OnlyThere(j, k, i' - k, p, m);
    }
  }

  lemma OnlyThere(j: nat, k: nat, d: nat, p: nat, m: nat)
    requires j < m && d < m && p < m && Place(j, k + d, m) == p
    ensures d == Onwards(Place(j, k, m), p, m)
  {
    Onward(j, k, d, m);
  }

  /** How far it is on from one place to another. */
  function Onwards(here: int, p: int, m: int): int {
    if here <= p then p - here else p + m - here
  }

  /** Less than a round on from a place. */
  lemma {:induction false} Onward(j: nat, k: nat, d: nat, m: nat)
    requires j < m && d < m
    ensures var here := Place(j, k, m);
      Place(j, k + d, m) == if here + d < m then here + d else here + d - m
  {
    if d > 0 {
      Onward(j, k, d - 1, m);
    }
  }

  lemma SamePlace(nRx: nat, j: nat, k: nat)
    requires Possible(nRx) && j < Count(nRx) && k < Count(nRx) && Nth(nRx, j) == Nth(nRx, k)
    ensures j == k
  {
    if j < k { NthIncreases(nRx, j, k); } else if k < j { NthIncreases(nRx, k, j); }
  }
}
