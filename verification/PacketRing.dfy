/** dspmath/packet_ring_buffer.h: a ring of packets with free-running 16-bit pointers. */
module PacketRing {
  import opened Remainders

  /** Numbers that stand for packets. */
  type Packet = nat

  const SIZE := 64
  const SHORT := 0x1_0000

  class Ring {
    const ring: array<Packet>
    var rdptr: nat
    var wrptr: nat
    // how much has been written and read in all
    ghost var written: nat
    ghost var read: nat

    ghost predicate Valid()
      reads this, ring
    {
      && ring.Length == SIZE
      && read <= written < read + SIZE
      && wrptr == written % SHORT && rdptr == read % SHORT
    }

    /** The packets not yet read, oldest first. */
    ghost function Contents(): (c: seq<Packet>)
      requires Valid()
      reads this, ring
      ensures |c| == written - read
    {
      seq(written - read,
          k requires 0 <= k < written - read reads this, ring requires Valid() => ring[(read + k) % SIZE])
    }

    constructor ()
      ensures Valid() && Contents() == [] && fresh(ring)
    {
      ring := new Packet[SIZE](_ => 0);
      rdptr, wrptr := 0, 0;
      written, read := 0, 0;
    }

    /** Not how many there are to read once there are 64: the count is taken modulo 64. */
    method CanRead() returns (n: int)
      requires Valid()
      ensures n == |Contents()|
    {
      n := (wrptr - rdptr) % SIZE;
      Difference(written, read);
    }

    /** Never zero, whatever the ring holds. */
    method CanWrite() returns (n: int)
      requires Valid()
      ensures n == SIZE - |Contents()| && 0 < n
    {
      n := CanRead();
      n := SIZE - n;
    }

    method Read() returns (p: Packet)
      requires Valid() && Contents() != []
      modifies this
      ensures Valid() && p == old(Contents())[0] && Contents() == old(Contents())[1..]
    {
      Slots(read);
      p := ring[rdptr % SIZE];
      rdptr := (rdptr + 1) % SHORT;
      read := read + 1;
      assert forall k :: 0 <= k < |Contents()| ==> Contents()[k] == old(Contents())[k + 1];
    }

    /** One slot has to stay free: with 63 packets a write would make the ring look empty. */
    method Write(p: Packet)
      requires Valid() && |Contents()| < SIZE - 1
      modifies this, ring
      ensures Valid() && Contents() == old(Contents()) + [p]
    {
      Slots(written);
      ring[wrptr % SIZE] := p;
      wrptr := (wrptr + 1) % SHORT;
      written := written + 1;
      forall k | 0 <= k < |Contents()| - 1 ensures Contents()[k] == old(Contents())[k] {
        Apart(read + k, written - 1);
      }
    }
  }

  lemma Slots(n: nat)
    ensures n % SHORT % SIZE == n % SIZE && (n % SHORT + 1) % SHORT == (n + 1) % SHORT
  {
    var q, m := n / SHORT, n % SHORT;
    ModUnique(n, SIZE, q * 1024 + m / SIZE, m % SIZE);
    NextPhase(n, SHORT);
  }

  lemma Difference(w: nat, r: nat)
    requires r <= w < r + SIZE
    ensures (w % SHORT - r % SHORT) % SIZE == w - r
  {
    CountRightIff(w, r);
  }

  /** The count read off the pointers is right exactly while there are fewer than 64 packets. */
  lemma CountRightIff(w: nat, r: nat)
    requires r <= w
    ensures (w % SHORT - r % SHORT) % SIZE == (w - r) % SIZE
    ensures (w % SHORT - r % SHORT) % SIZE == w - r <==> w - r < SIZE
  {
    var n, rest := (w - r) / SIZE, (w - r) % SIZE;
    var turns := w / SHORT - r / SHORT;
    assert w % SHORT - r % SHORT == SIZE * (n - 1024 * turns) + rest;
    ModUnique(w % SHORT - r % SHORT, SIZE, n - 1024 * turns, rest);
  }

  lemma Apart(a: nat, b: nat)
    requires a < b < a + SIZE
    ensures a % SIZE != b % SIZE
  {
  }
}
