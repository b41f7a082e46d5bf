/**
 sdrtcl/hl_udp_jack.c: a packet to be sent.  Packets come back from receiving with what was received in them, and
 are filled again sample by sample and then stamped with their headers.
 */
module TxPacket {
  import opened RingArithmetic
  import opened PacketPump
  import opened RegisterScan
  import opened RegisterSettings

  const BYTES := 1032
  const STRIDE := 8

  /** A transmit sample, as two 16-bit integers. */
  datatype Sample = Sample(i: int, q: int)

  predicate ValidSample(s: Sample) {
    -0x8000 <= s.i < 0x8000 && -0x8000 <= s.q < 0x8000
  }

  /** Silent audio, then both parts of the sample, high byte first. */
  function SampleBytes(s: Sample): (b: seq<Byte>)
    ensures |b| == STRIDE
  {
    [0, 0, 0, 0, s.i / 256 % 256, s.i % 256, s.q / 256 % 256, s.q % 256]
  }

  /** The signed 16-bit number in two bytes, high byte first. */
  function Signed16(high: int, low: int): int {
    var u := high * 256 + low;
    if u < 0x8000 then u else u - 0x1_0000
  }

  /** As the receiver of the packet reads it: two silent audio channels, then both parts of the sample. */
  ghost predicate ReadsAs(b: seq<Byte>, at: nat, s: Sample) {
    && at + 8 <= |b|
    && b[at] == b[at + 1] == b[at + 2] == b[at + 3] == 0
    && (forall k :: at <= k < at + 8 ==> 0 <= b[k] < 256)
    && Signed16(b[at + 4], b[at + 5]) == s.i && Signed16(b[at + 6], b[at + 7]) == s.q
  }

  lemma SampleReadsBack(s: Sample)
    requires ValidSample(s)
    ensures ReadsAs(SampleBytes(s), 0, s)
  {
    PartReadsBack(s.i);
    PartReadsBack(s.q);
  }

  lemma PartReadsBack(x: int)
    requires -0x8000 <= x < 0x8000
    ensures Signed16(x / 256 % 256, x % 256) == x
  {
    assert x == x / 256 * 256 + x % 256;
  }

  /** Reading does not depend on where. */
  lemma ReadsInside(a: seq<Byte>, b: seq<Byte>, c: seq<Byte>, at: nat, s: Sample)
    requires ReadsAs(b, at, s)
    ensures ReadsAs(a + b + c, |a| + at, s)
  {
    assert forall k :: 0 <= k < |b| ==> (a + b + c)[|a| + k] == b[k];
  }

  function SamplesBytes(samples: seq<Sample>): (b: seq<Byte>)
    ensures |b| == STRIDE * |samples|
  {
    if samples == [] then [] else SamplesBytes(samples[..|samples| - 1]) + SampleBytes(samples[|samples| - 1])
  }

  /** Where sample n of a packet goes. */
  function Place(n: nat): nat {
    if n < 63 then 16 + STRIDE * n else 528 + STRIDE * (n - 63)
  }

  function Put(b: seq<Byte>, at: nat, more: seq<Byte>): (r: seq<Byte>)
    requires at + |more| <= |b|
    ensures |r| == |b|
  {
    b[..at] + more + b[at + |more|..]
  }

  /** The bytes with the first n samples put in. */
  function Filled(b: seq<Byte>, samples: seq<Sample>): (r: seq<Byte>)
    requires |b| == BYTES && |samples| <= 126
    ensures |r| == BYTES
  {
    if samples == [] then b
    else Put(Filled(b, samples[..|samples| - 1]), Place(|samples| - 1), SampleBytes(samples[|samples| - 1]))
  }

  /** The headers: sync, end point, sequence number, and for each half sync and control bytes. */
  function UdpHeader(sequence: nat): (b: seq<Byte>)
    ensures |b| == 8
  {
    [0xEF, 0xFE, 0x01, 0x02] + BigEndian(sequence)
  }

  /** The bytes for a register: its number and the transmit bit, and the four bytes of its settings. */
  function Control(c0: nat, mox: bool, settings: seq<Byte>): (b: seq<Byte>)
    requires c0 <= LAST && |settings| == 4
    ensures |b| == 8
  {
    [0x7f, 0x7f, 0x7f, c0 * 2 + if mox then 1 else 0] + settings
  }

  /** A whole packet, from nothing but what is sent. */
  function Finished(samples: seq<Sample>, sequence: nat, first: seq<Byte>, second: seq<Byte>): (b: seq<Byte>)
    requires |samples| == 126 && |first| == |second| == 8
    ensures |b| == BYTES
  {
    UdpHeader(sequence) + first + SamplesBytes(samples[..63]) + second + SamplesBytes(samples[63..])
  }

  lemma {:induction false} BytesConcat(a: seq<Sample>, b: seq<Sample>)
    ensures SamplesBytes(a + b) == SamplesBytes(a) + SamplesBytes(b)
  {
    if b == [] {
      assert a + b == a;
    } else {
      var m := |b| - 1;
      BytesConcat(a, b[..m]);
      assert (a + b)[..|a + b| - 1] == a + b[..m];
      assert (SamplesBytes(a) + SamplesBytes(b[..m])) + SampleBytes(b[m]) == SamplesBytes(a) + SamplesBytes(b);
    }
  }

  /** While the first half is filled. */
  lemma {:induction false} FirstHalf(b: seq<Byte>, samples: seq<Sample>)
    requires |b| == BYTES && |samples| <= 63
    ensures Filled(b, samples) == b[..16] + SamplesBytes(samples) + b[16 + STRIDE * |samples|..]
  {
    if samples != [] {
      var n := |samples| - 1;
      var x, y := SamplesBytes(samples[..n]), SampleBytes(samples[n]);
      FirstHalf(b, samples[..n]);
      FilledNext(b, samples[..n], samples[n], samples);
      MoreSamples(samples, n, x, y);
      FirstMore(b, x, y, n, Filled(b, samples[..n]), Filled(b, samples));
    } else {
      assert b == b[..16] + [] + b[16..];
    }
  }

  lemma FirstMore(b: seq<Byte>, x: seq<Byte>, y: seq<Byte>, n: nat, filled: seq<Byte>, more: seq<Byte>)
    requires |b| == BYTES && |x| == STRIDE * n && |y| == STRIDE && n < 63
    requires filled == b[..16] + x + b[16 + STRIDE * n..] && more == Put(filled, Place(n), y)
    ensures more == b[..16] + (x + y) + b[16 + STRIDE * (n + 1)..]
  {
    PutMore(b, b[..16], x, y, filled);
  }

  /** Putting bytes right behind what has been put. */
  lemma PutNext(sofar: seq<Byte>, b: seq<Byte>, at: nat, more: seq<Byte>)
    requires |sofar| == at && at + |more| <= |b|
    ensures Put(sofar + b[at..], at, more) == (sofar + more) + b[at + |more|..]
  {
  }

  lemma FilledNext(b: seq<Byte>, before: seq<Sample>, s: Sample, samples: seq<Sample>)
    requires |b| == BYTES && |samples| <= 126 && samples == before + [s]
    ensures Filled(b, samples) == Put(Filled(b, before), Place(|before|), SampleBytes(s))
  {
    assert samples[..|before|] == before;
  }

  /** While the second half is filled. */
  lemma {:induction false} SecondHalf(b: seq<Byte>, first: seq<Sample>, second: seq<Sample>, all: seq<Sample>)
    requires |b| == BYTES && |first| == 63 && |second| <= 63 && all == first + second
    ensures Filled(b, all) ==
      b[..16] + SamplesBytes(first) + b[520..528] + SamplesBytes(second) + b[528 + STRIDE * |second|..]
  {
    if second == [] {
      assert all == first;
      OnlyFirst(b, first);
    } else {
      var n := |second| - 1;
      var before := all[..63 + n];
      SecondHalf(b, first, second[..n], before);
      FilledNext(b, before, second[n], all);
      MoreSamples(second, n, SamplesBytes(second[..n]), SampleBytes(second[n]));
      SecondMore(b, b[..16] + SamplesBytes(first) + b[520..528], SamplesBytes(second[..n]), SampleBytes(second[n]), n,
                 Filled(b, before), Filled(b, all));
    }
  }

  lemma MoreSamples(samples: seq<Sample>, n: nat, x: seq<Byte>, y: seq<Byte>)
    requires n + 1 == |samples| && x == SamplesBytes(samples[..n]) && y == SampleBytes(samples[n])
    ensures SamplesBytes(samples) == x + y
  {
  }

  lemma SecondMore(b: seq<Byte>, sofar: seq<Byte>, x: seq<Byte>, y: seq<Byte>, n: nat, filled: seq<Byte>,
                   more: seq<Byte>)
    requires |b| == BYTES && |sofar| == 528 && |x| == STRIDE * n && |y| == STRIDE && n < 63
    requires filled == sofar + x + b[528 + STRIDE * n..] && more == Put(filled, Place(63 + n), y)
    ensures more == sofar + (x + y) + b[528 + STRIDE * (n + 1)..]
  {
    PutMore(b, sofar, x, y, filled);
  }

  lemma OnlyFirst(b: seq<Byte>, first: seq<Sample>)
    requires |b| == BYTES && |first| == 63
    ensures Filled(b, first) == b[..16] + SamplesBytes(first) + b[520..528] + [] + b[528..]
  {
    FirstHalf(b, first);
    BetweenHalves(b[..16] + SamplesBytes(first), b);
  }

  lemma PutMore(b: seq<Byte>, sofar: seq<Byte>, x: seq<Byte>, y: seq<Byte>, filled: seq<Byte>)
    requires |sofar| + |x| + |y| <= |b| && filled == sofar + x + b[|sofar| + |x|..]
    ensures Put(filled, |sofar| + |x|, y) == sofar + (x + y) + b[|sofar| + |x| + |y|..]
  {
    PutNext(sofar + x, b, |sofar| + |x|, y);
    BytesAssociate(sofar, x, y);
  }

  lemma BetweenHalves(sofar: seq<Byte>, b: seq<Byte>)
    requires |b| == BYTES
    ensures sofar + b[520..] == sofar + b[520..528] + [] + b[528..]
  {
    assert b[520..] == b[520..528] + b[528..];
  }

  lemma BytesAssociate(a: seq<Byte>, b: seq<Byte>, c: seq<Byte>)
    ensures (a + b) + c == a + (b + c)
  {
  }

  /** The bytes with both kinds of header put in. */
  function Stamped(b: seq<Byte>, sequence: nat, first: seq<Byte>, second: seq<Byte>): (r: seq<Byte>)
    requires |b| == BYTES && |first| == |second| == 8
    ensures |r| == BYTES
  {
    Put(Put(Put(b, 0, UdpHeader(sequence)), 8, first), 520, second)
  }

  /**
   Nothing of what was in the packet before is left: filled and stamped, it is what is sent and nothing else,
   whatever it held.
   */
  lemma NothingLeftOver(b: seq<Byte>, samples: seq<Sample>, sequence: nat, first: seq<Byte>, second: seq<Byte>)
    requires |b| == BYTES && |samples| == 126 && |first| == |second| == 8
    ensures Stamped(Filled(b, samples), sequence, first, second) == Finished(samples, sequence, first, second)
  {
    assert samples == samples[..63] + samples[63..];
    SecondHalf(b, samples[..63], samples[63..], samples);
    Stamps(b[..16], SamplesBytes(samples[..63]), b[520..528], SamplesBytes(samples[63..]), sequence, first, second);
    assert b[1032..] == [];
    var filled := Filled(b, samples);
    assert filled == b[..16] + SamplesBytes(samples[..63]) + b[520..528] + SamplesBytes(samples[63..]);
  }

  lemma {:induction false} SamplesReadBack(samples: seq<Sample>, n: nat)
    requires n < |samples| && ValidSample(samples[n])
    ensures ReadsAs(SamplesBytes(samples), STRIDE * n, samples[n])
  {
    var m := |samples| - 1;
    var before, last := SamplesBytes(samples[..m]), SampleBytes(samples[m]);
    if n < m {
      SamplesReadBack(samples[..m], n);
      ReadsInside([], before, last, STRIDE * n, samples[n]);
      assert [] + before + last == SamplesBytes(samples);
    } else {
      SampleReadsBack(samples[m]);
      ReadsInside(before, last, [], 0, samples[m]);
      assert before + last + [] == SamplesBytes(samples);
    }
  }

  /** Every one of the 126 samples of a packet can be read back from its place. */
  lemma PacketReadsBack(samples: seq<Sample>, sequence: nat, first: seq<Byte>, second: seq<Byte>, n: nat)
    requires |samples| == 126 && |first| == |second| == 8 && n < 126 && ValidSample(samples[n])
    ensures ReadsAs(Finished(samples, sequence, first, second), Place(n), samples[n])
  {
    var head, x, y := UdpHeader(sequence) + first, SamplesBytes(samples[..63]), SamplesBytes(samples[63..]);
    if n < 63 {
      SamplesReadBack(samples[..63], n);
      ReadsInside(head, x, second + y, STRIDE * n, samples[n]);
      assert head + x + (second + y) == Finished(samples, sequence, first, second);
    } else {
      SamplesReadBack(samples[63..], n - 63);
      ReadsInside(head + x + second, y, [], STRIDE * (n - 63), samples[n]);
      assert head + x + second + y + [] == Finished(samples, sequence, first, second);
    }
  }

  /** As the receiver reads the eight bytes before each half: sync, the register, the transmit bit and the settings. */
  ghost predicate ControlsAt(b: seq<Byte>, at: nat, c0: nat, mox: bool, settings: seq<Byte>) {
    && at + 8 <= |b|
    && b[at] == b[at + 1] == b[at + 2] == 0x7f
    && b[at + 3] / 2 == c0 && (b[at + 3] % 2 == 1 <==> mox)
    && b[at + 4..at + 8] == settings
  }

  /** The headers can be read back from a stamped packet, whatever else is in it. */
  lemma HeadersReadBack(b: seq<Byte>, sequence: nat, mox: bool, c1: nat, settings1: seq<Byte>, c2: nat,
                        settings2: seq<Byte>)
    requires |b| == BYTES && sequence < WRAP && c1 <= LAST && c2 <= LAST && |settings1| == |settings2| == 4
    ensures var r := Stamped(b, sequence, Control(c1, mox, settings1), Control(c2, mox, settings2));
      && r[..4] == [0xEF, 0xFE, 0x01, 0x02] && FromBigEndian(r[4..8]) == sequence
      && ControlsAt(r, 8, c1, mox, settings1) && ControlsAt(r, 520, c2, mox, settings2)
  {
    var first, second := Control(c1, mox, settings1), Control(c2, mox, settings2);
    BigEndianRoundTrip(sequence);
    Stamps(b[..16], b[16..520], b[520..528], b[528..], sequence, first, second);
    assert b == b[..16] + b[16..520] + b[520..528] + b[528..];
    var r := Stamped(b, sequence, first, second);
    assert r[4..8] == BigEndian(sequence);
    assert r[8..16] == first && r[520..528] == second;
    ControlIs(r, 8, c1, mox, settings1);
    ControlIs(r, 520, c2, mox, settings2);
  }

  lemma ControlIs(r: seq<Byte>, at: nat, c0: nat, mox: bool, settings: seq<Byte>)
    requires at + 8 <= |r| && c0 <= LAST && |settings| == 4 && r[at..at + 8] == Control(c0, mox, settings)
    ensures ControlsAt(r, at, c0, mox, settings)
  {
    var c := r[at..at + 8];
    assert r[at] == c[0] && r[at + 1] == c[1] && r[at + 2] == c[2] && r[at + 3] == c[3];
    assert r[at + 4..at + 8] == c[4..8] == settings;
  }

  lemma Stamps(h: seq<Byte>, x: seq<Byte>, m: seq<Byte>, y: seq<Byte>, sequence: nat, first: seq<Byte>,
               second: seq<Byte>)
    requires |h| == 16 && |x| == |y| == 504 && |m| == |first| == |second| == 8
    ensures Stamped(h + x + m + y, sequence, first, second) == UdpHeader(sequence) + first + x + second + y
  {
    var b, head := h + x + m + y, UdpHeader(sequence);
    var b1 := Put(b, 0, head);
    assert b1 == head + h[8..] + x + m + y;
    var b2 := Put(b1, 8, first);
    assert b2 == head + first + x + m + y;
  }

  // ---- where the pump puts the samples ----

  lemma {:induction false} HalfAt(p: nat, usb: int, k: nat, n: nat)
    requires n < k
    ensures |Half(p, usb, STRIDE, k)| == k && Half(p, usb, STRIDE, k)[n] == Frame(p, Base(usb) + n * STRIDE)
  {
    if n < k - 1 {
      HalfAt(p, usb, k - 1, n);
    } else if k > 1 {
      HalfAt(p, usb, k - 1, 0);
    }
  }

  /** The frames of a packet to be sent are the places of its 126 samples, in order. */
  lemma FramesArePlaces(p: nat, n: nat)
    requires n < 126
    ensures |Whole(p, STRIDE)| == 126 && Whole(p, STRIDE)[n] == Frame(p, Place(n))
  {
    assert PerHalf(STRIDE) == 63;
    HalfAt(p, 0, 63, if n < 63 then n else 0);
    HalfAt(p, 1, 63, if n < 63 then 0 else n - 63);
  }

  // ---- the code ----

  method PutBytes(bytes: array<Byte>, at: nat, more: seq<Byte>)
    requires at + |more| <= bytes.Length
    modifies bytes
    ensures bytes[..] == Put(old(bytes[..]), at, more)
  {
    ghost var before := bytes[..];
    for k := 0 to |more|
      invariant bytes[..] == Put(before, at, more[..k])
    {
      bytes[at + k] := more[k];
      PutOneMore(before, at, more, k);
    }
    assert more[..|more|] == more;
  }

  lemma PutOneMore(b: seq<Byte>, at: nat, more: seq<Byte>, k: nat)
    requires at + |more| <= |b| && k < |more|
    ensures Put(b, at, more[..k])[at + k := more[k]] == Put(b, at, more[..k + 1])
  {
  }

  /** _storeu: from the last byte back. */
  method StoreUnsigned(bytes: array<Byte>, at: nat, f: nat)
    requires at + 4 <= bytes.Length
    modifies bytes
    ensures bytes[..] == Put(old(bytes[..]), at, BigEndian(f))
  {
    var f1, f2, f3 := f / 256, f / 256 / 256, f / 256 / 256 / 256;
    bytes[at + 3] := f % 256;
    bytes[at + 2] := f1 % 256;
    bytes[at + 1] := f2 % 256;
    bytes[at] := f3 % 256;
    assert f2 == f / 0x1_0000 && f3 == f / 0x100_0000;
  }

  /** One transmit sample to its eight bytes. */
  method PutSample(bytes: array<Byte>, i: nat, s: Sample)
    requires i + STRIDE <= bytes.Length && ValidSample(s)
    modifies bytes
    ensures bytes[..] == Put(old(bytes[..]), i, SampleBytes(s)) && ReadsAs(bytes[..], i, s)
  {
    ghost var before := bytes[..];
    bytes[i], bytes[i + 1], bytes[i + 2], bytes[i + 3] := 0, 0, 0, 0;
    bytes[i + 4], bytes[i + 5] := s.i / 256 % 256, s.i % 256;
    bytes[i + 6], bytes[i + 7] := s.q / 256 % 256, s.q % 256;
    assert bytes[..] == before[..i] + SampleBytes(s) + before[i + STRIDE..];
    SampleReadsBack(s);
    ReadsInside(before[..i], SampleBytes(s), before[i + STRIDE..], 0, s);
  }

  /** Stamp a packet that is full: the next sequence number, and the next two registers with their settings. */
  method Scan(bytes: array<Byte>, sequence: nat, index: nat, o: Options)
    returns (sequence': nat, index': nat, ghost c1: nat, ghost c2: nat)
    requires bytes.Length == BYTES && sequence < WRAP && index < WRAP && o.nRx <= |o.fRx| == 12
    modifies bytes
    ensures IsNext(o.nRx, index, c1) && IsNext(o.nRx, c1 + 1, c2) && c1 <= LAST && c2 <= LAST
    ensures bytes[..] ==
      Stamped(old(bytes[..]), sequence, Control(c1, o.mox, SettingsOf(o, c1)), Control(c2, o.mox, SettingsOf(o, c2)))
    ensures sequence' == (sequence + 1) % WRAP && index' == c2 + 1
  {
    PutBytes(bytes, 0, [0xEF, 0xFE, 0x01, 0x02]);
    StoreUnsigned(bytes, 4, sequence);
    PutTwice(old(bytes[..]), [0xEF, 0xFE, 0x01, 0x02], BigEndian(sequence));
    sequence' := (sequence + 1) % WRAP;
    var c0;
    c0, index' := NextRegister(o.nRx, index);
    c1 := c0;
    PutBytes(bytes, 8, Control(c0, o.mox, SettingsOf(o, c0)));
    c0, index' := NextRegister(o.nRx, index');
    c2 := c0;
    PutBytes(bytes, 520, Control(c0, o.mox, SettingsOf(o, c0)));
  }

  lemma PutTwice(b: seq<Byte>, x: seq<Byte>, y: seq<Byte>)
    requires |x| + |y| <= |b|
    ensures Put(Put(b, 0, x), |x|, y) == Put(b, 0, x + y)
  {
  }

  /**
   A packet of which every sample has been put and the headers stamped, starting from any two earlier contents,
   is the same packet.
   */
  lemma ContentsForgotten(a: seq<Byte>, b: seq<Byte>, samples: seq<Sample>, sequence: nat,
                          first: seq<Byte>, second: seq<Byte>)
    requires |a| == |b| == BYTES && |samples| == 126 && |first| == |second| == 8
    ensures Stamped(Filled(a, samples), sequence, first, second) == Stamped(Filled(b, samples), sequence, first, second)
  {
    NothingLeftOver(a, samples, sequence, first, second);
    NothingLeftOver(b, samples, sequence, first, second);
  }
}
