/** dspmath/ring_buffer.h: a power-of-two ring with free-running unsigned pointers. */
module RingArithmetic {
  import opened Remainders

  type Byte = int

  // the unsigned pointers wrap here
  const WRAP := 0x1_0000_0000

  predicate PowerOfTwo(n: nat) {
    n == 1 || (n > 1 && n % 2 == 0 && PowerOfTwo(n / 2))
  }

  function Pow2(k: nat): nat {
    if k == 0 then 1 else 2 * Pow2(k - 1)
  }

  lemma {:induction false} DividesPow2(n: nat, k: nat) returns (q: nat)
    requires PowerOfTwo(n) && n <= Pow2(k)
    ensures Pow2(k) == n * q
  {
    if n == 1 {
      q := Pow2(k);
    } else {
      q := DividesPow2(n / 2, k - 1);
      assert Pow2(k) == 2 * ((n / 2) * q) == n * q;
    }
  }

  /** A ring size: one that an unsigned can hold and that divides the wrap evenly. */
  predicate RingSize(n: nat) {
    0 < n < WRAP && WRAP % n == 0
  }

  /** ring_buffer_init accepts the powers of two, and those are such sizes. */
  lemma PowersOfTwoAreRingSizes(n: nat)
    requires PowerOfTwo(n) && n < WRAP
    ensures RingSize(n)
  {
    assert Pow2(8) == 256 && Pow2(16) == 65536 && Pow2(24) == 16777216 && Pow2(32) == WRAP;
    var q := DividesPow2(n, 32);
    ModUnique(WRAP, n, q, 0);
  }

  /** Wrapping a pointer at 2^32 does not move it in the ring. */
  lemma WrapKeepsSlot(x: nat, size: nat)
    requires RingSize(size)
    ensures x % WRAP % size == x % size
  {
    var q := WRAP / size;
    assert WRAP == size * q;
    var w, s := x % WRAP, x % WRAP % size;
    var a, b := x / WRAP, w / size;
    assert x == WRAP * a + w && w == size * b + s;
    assert WRAP * a == size * (q * a);
    assert x == size * (q * a + b) + s;
    ModUnique(x, size, q * a + b, s);
  }

  /** The slot of a position in a ring. */
  function Slot(position: nat, size: nat): (k: nat)
    requires 0 < size
    ensures k < size
  {
    position % size
  }

  /** Two positions less than a ring apart are in different slots. */
  lemma SlotsDiffer(a: nat, b: nat, size: nat)
    requires 0 < size && a < b < a + size
    ensures Slot(a, size) != Slot(b, size)
  {
    var d := b / size - a / size;
    assert b - a == size * d + b % size - a % size;
    assert d >= 1 ==> size * d >= size;
    assert d <= 0 ==> size * d <= 0;
  }

  /** The free-running difference is the true difference as long as that is below 2^32. */
  lemma WrapDifference(w: nat, r: nat)
    requires r <= w < r + WRAP
    ensures (w % WRAP - r % WRAP) % WRAP == w - r
  {
    var k := w / WRAP - r / WRAP;
    assert w % WRAP - r % WRAP == WRAP * (-k) + (w - r);
    ModUnique(w % WRAP - r % WRAP, WRAP, -k, w - r);
  }

  lemma WrapSum(x: nat, n: nat)
    ensures (x % WRAP + n) % WRAP == (x + n) % WRAP
  {
    var k := x / WRAP;
    var r := (x % WRAP + n) % WRAP;
    var m := (x % WRAP + n) / WRAP;
    assert x + n == WRAP * (k + m) + r;
    ModUnique(x + n, WRAP, k + m, r);
  }
}

module RingBuffer {
  import opened RingArithmetic

  class Ring {
    var wptr: nat
    var rptr: nat
    const size: nat
    const buff: array<Byte>
    // every byte ever written, and how many of them have been read
    ghost var log: seq<Byte>
    ghost var read: nat

    ghost predicate Valid()
      reads this, buff
    {
      && RingSize(size) && buff.Length == size
      && wptr == |log| % WRAP && rptr == read % WRAP
      && read <= |log| <= read + size
      && Holds(log)
    }

    /** The bytes from the first unread one on are in their slots. */
    ghost predicate Holds(bytes: seq<Byte>)
      requires 0 < size == buff.Length
      reads this, buff
    {
      forall p {:trigger bytes[p]} :: read <= p < |bytes| ==> buff[Slot(p, size)] == bytes[p]
    }

    /** The unread bytes, oldest first. */
    ghost function Contents(): seq<Byte>
      requires Valid()
      reads this, buff
    {
      log[read..]
    }

    constructor (size: nat)
      requires PowerOfTwo(size) && size < WRAP
      ensures Valid() && fresh(buff) && this.size == size && Contents() == []
    {
      this.size := size;
      buff := new Byte[size](_ => 0);
      wptr, rptr, log, read := 0, 0, [], 0;
      PowersOfTwoAreRingSizes(size);
    }

    method Reset()
      requires Valid()
      modifies this
      ensures Valid() && log == [] && read == 0 && wptr == 0
    {
      wptr, rptr, log, read := 0, 0, [], 0;
    }

    method AvailableToRead() returns (n: nat)
      requires Valid()
      ensures n == |Contents()|
    {
      WrapDifference(|log|, read);
      n := (wptr - rptr) % WRAP;
    }

    method AvailableToWrite() returns (n: nat)
      requires Valid()
      ensures n == size - |Contents()|
    {
      var m := AvailableToRead();
      n := size - m;
    }

    /** ring_buffer_index of a pointer n places on. */
    method Index(ptr: nat, ghost position: nat, n: nat) returns (k: nat)
      requires RingSize(size) && ptr == position % WRAP
      ensures k == Slot(position + n, size)
    {
      WrapSum(position, n);
      WrapKeepsSlot(position + n, size);
      k := (ptr + n) % WRAP % size;
    }

    method Peek(n: nat) returns (r: int, bytes: seq<Byte>)
      requires Valid()
      ensures n <= |Contents()| ==> r == n && bytes == Contents()[..n]
      ensures n > |Contents()| ==> r == -1 && bytes == []
    {
      bytes := [];
      var m := AvailableToRead();
      if m < n { return -1, []; }
      for i := 0 to n
        invariant bytes == Contents()[..i]
      {
        var k := Index(rptr, read, i);
        assert log[read + i] == buff[k];
        bytes := bytes + [buff[k]];
      }
      r := n;
    }

    method ReadAdvance(n: nat)
      requires Valid() && n <= |Contents()|
      modifies this
      ensures Valid() && Contents() == old(Contents())[n..]
      ensures log == old(log) && read == old(read) + n && wptr == old(wptr)
    {
      WrapSum(read, n);
      rptr := (rptr + n) % WRAP;
      read := read + n;
    }

    method Get(n: nat) returns (r: int, bytes: seq<Byte>)
      requires Valid()
      modifies this
      ensures Valid() && log == old(log)
      ensures n <= |old(Contents())| ==>
        r == n && bytes == old(Contents())[..n] && Contents() == old(Contents())[n..]
      ensures n > |old(Contents())| ==> r == -1 && bytes == [] && Contents() == old(Contents())
    {
      r, bytes := Peek(n);
      if r == n { ReadAdvance(n); }
    }

    /** Store one more byte after those held, in free space. */
    method Store(n: nat, b: Byte, ghost bytes: seq<Byte>)
      requires Valid() && Holds(bytes) && log <= bytes
      requires |bytes| == |log| + n < read + size
      modifies buff
      ensures Valid() && Holds(bytes + [b])
      ensures forall k :: 0 <= k < size && k != Slot(|bytes|, size) ==> buff[k] == old(buff[k])
    {
      var k := Index(wptr, |log|, n);
      forall p: nat | read <= p < |bytes| ensures Slot(p, size) != k {
        SlotsDiffer(p, |bytes|, size);
      }
      buff[k] := b;
      forall p | read <= p < |bytes| + 1 ensures buff[Slot(p, size)] == (bytes + [b])[p] {
        if p < |bytes| { assert buff[Slot(p, size)] == bytes[p]; }
      }
    }

    /** Take the n bytes stored after the last byte written into the contents. */
    method Publish(n: nat, ghost bytes: seq<Byte>)
      requires Valid() && |bytes| == n && Holds(log + bytes) && |log| + n <= read + size
      modifies this
      ensures Valid() && Contents() == old(Contents()) + bytes
      ensures log == old(log) + bytes && read == old(read)
    {
      WrapSum(|log|, n);
      wptr := (wptr + n) % WRAP;
      log := log + bytes;
    }

    method Put(bytes: seq<Byte>) returns (r: int)
      requires Valid()
      modifies this, buff
      ensures Valid() && read == old(read)
      ensures |old(Contents())| + |bytes| <= size ==>
        r == |bytes| && Contents() == old(Contents()) + bytes && log == old(log) + bytes
      ensures |old(Contents())| + |bytes| > size ==> r == -1 && log == old(log)
    {
      var room := AvailableToWrite();
      if room < |bytes| { return -1; }
      assert log + bytes[..0] == log;
      for i := 0 to |bytes|
        invariant Valid() && unchanged(this) && Holds(log + bytes[..i])
      {
        assert (log + bytes[..i]) + [bytes[i]] == log + bytes[..i + 1];
        Store(i, bytes[i], log + bytes[..i]);
      }
      assert bytes[..|bytes|] == bytes;
      Publish(|bytes|, bytes);
      r := |bytes|;
    }

    /** Copy the first n unread bytes behind those of another ring, without publishing them there. */
    method CopyTo(n: nat, dst: Ring)
      requires Valid() && dst.Valid() && dst != this && dst.buff != buff
      requires n <= |Contents()| && |dst.Contents()| + n <= dst.size
      modifies dst.buff
      ensures Valid() && dst.Valid() && dst.Holds(dst.log + Contents()[..n])
    {
      ghost var bytes := Contents()[..n];
      assert dst.log + bytes[..0] == dst.log;
      for i := 0 to n
        invariant Valid() && dst.Valid() && dst.Holds(dst.log + bytes[..i])
      {
        var k := Index(rptr, read, i);
        assert log[read + i] == buff[k];
        assert (dst.log + bytes[..i]) + [bytes[i]] == dst.log + bytes[..i + 1];
        dst.Store(i, buff[k], dst.log + bytes[..i]);
      }
      assert bytes[..n] == bytes;
    }

    /** Move n bytes from this ring to another: ring_buffer_get_to_ring and ring_buffer_put_from_ring. */
    method MoveTo(n: nat, dst: Ring) returns (r: int)
      requires Valid() && dst.Valid() && dst != this && dst.buff != buff
      modifies this, dst, dst.buff
      ensures Valid() && dst.Valid() && log == old(log) && dst.read == old(dst.read)
      ensures n <= |old(Contents())| && |old(dst.Contents())| + n <= dst.size ==>
        && r == n && Contents() == old(Contents())[n..]
        && dst.Contents() == old(dst.Contents()) + old(Contents())[..n]
        && dst.log == old(dst.log) + old(Contents())[..n]
      ensures n > |old(Contents())| || |old(dst.Contents())| + n > dst.size ==>
        r == -1 && read == old(read) && dst.log == old(dst.log)
    {
      var m := AvailableToRead();
      var room := dst.AvailableToWrite();
      if m < n || room < n { return -1; }
      ghost var bytes := Contents()[..n];
      CopyTo(n, dst);
      ReadAdvance(n);
      dst.Publish(n, bytes);
      r := n;
    }
  }
}
