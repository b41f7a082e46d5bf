/** sdrtcl/hl_udp_jack.c, _txiqscan: the four bytes sent with each control register. */
module RegisterSettings {
  import opened Remainders
  import opened RingArithmetic
  import opened RegisterScan

  /** Four bytes, high byte first. */
  function BigEndian(f: nat): (b: seq<Byte>)
    ensures |b| == 4
  {
    [f / 0x100_0000 % 256, f / 0x1_0000 % 256, f / 256 % 256, f % 256]
  }

  function FromBigEndian(b: seq<Byte>): int
    requires |b| == 4
  {
    ((b[0] * 256 + b[1]) * 256 + b[2]) * 256 + b[3]
  }

  lemma BigEndianRoundTrip(f: nat)
    requires f < WRAP
    ensures FromBigEndian(BigEndian(f)) == f
  {
    var a, b, c := f / 256, f / 0x1_0000, f / 0x100_0000;
    assert f == a * 256 + f % 256;
    assert a == b * 256 + a % 256 && b == c * 256 + b % 256;
  }

  /** The options that are sent; flags are ints of which the lowest bit counts, but for mox. */
  datatype Options = Options(
    mox: bool, speedBits: int, filters: int, notSync: int, vnaFixedRxGain: int, nRx: int, duplex: int,
    fTx: int, fRx: seq<int>, level: int, vna: int, vnaCount: int, alexManualMode: int, tuneRequest: int,
    pa: int, lowPwr: int, i2cRxFilter: int, i2cTxFilter: int, pureSignal: int, hermesLiteLna: int, lnaDb: int,
    cwx: int, cwHangTime: int)

  /** The lowest bits, shifted up to where the field is, as powers of two. */
  function Field(x: int, bits: nat, at: nat): nat
    requires 0 < bits
  {
    x % bits * at
  }

  /** Either of two numbers, bit by bit from the lowest, n bits of them. */
  function Or(a: int, b: int, n: nat): (r: nat)
    ensures r < Pow2(n)
    decreases n
  {
    if n == 0 then 0 else 2 * Or(a / 2, b / 2, n - 1) + if a % 2 == 1 || b % 2 == 1 then 1 else 0
  }

  /** An unsigned made of an int wraps. */
  function Frequency(f: int): (b: seq<Byte>)
    ensures |b| == 4
  {
    BigEndian(f % WRAP)
  }

  function SettingsOf(o: Options, c0: nat): (b: seq<Byte>)
    requires o.nRx <= |o.fRx| == 12
    ensures |b| == 4
  {
    if c0 == 0x00 then
      [Field(o.speedBits, 4, 1), Field(o.filters, 128, 2), Field(o.notSync, 2, 16) + Field(o.vnaFixedRxGain, 2, 4),
       Field(o.nRx - 1, 8, 8) + Field(o.duplex, 2, 4)]
    else if c0 == 0x01 then Frequency(o.fTx)
    else if 0x02 <= c0 <= 0x08 then Frequency(o.fRx[c0 - 0x02])
    else if c0 == 0x09 then
      [o.level % 256,
       Field(o.vna, 2, 128) + Field(o.alexManualMode, 2, 64) + Field(o.tuneRequest, 2, 16) + Field(o.pa, 2, 8) +
         Field(o.lowPwr, 2, 4)]
      + if o.vna != 0 then [o.vnaCount / 256 % 256, o.vnaCount % 256] else [o.i2cRxFilter % 256, o.i2cTxFilter % 256]
    else if c0 == 0x0a then [0, Field(o.pureSignal, 2, 64), 0, Or(Field(o.hermesLiteLna, 2, 64), o.lnaDb + 12, 8)]
    else if c0 == 0x0f then [Field(o.cwx, 2, 1), 0, 0, 0]
    // masked with 0x3FB, so bit 2 is lost
    else if c0 == 0x10 then [Field(o.cwHangTime / 8, 128, 2), Field(o.cwHangTime, 4, 1), 0, 0]
    else if 0x12 <= c0 <= 0x16 then Frequency(o.fRx[c0 - 0x12 + 7])
    else [0, 0, 0, 0]
  }

  /** The receiver whose frequency a register carries, counted from 1. */
  function ReceiverOf(c0: nat): int {
    if 0x02 <= c0 <= 0x08 then c0 - 0x01 else c0 - 0x12 + 8
  }

  // ---- what can be read from them ----

  /** Every receiver's frequency is sent, in the register for that receiver. */
  lemma FrequencySent(o: Options, receiver: nat) returns (c0: nat)
    requires 1 <= receiver <= o.nRx <= |o.fRx| == 12
    ensures Sent(o.nRx, c0) && ReceiverOf(c0) == receiver
    ensures FromBigEndian(SettingsOf(o, c0)) == o.fRx[receiver - 1] % WRAP
    ensures FromBigEndian(SettingsOf(o, 0x01)) == o.fTx % WRAP
  {
    c0 := if receiver <= 7 then receiver + 1 else receiver - 8 + 0x12;
    BigEndianRoundTrip(o.fRx[receiver - 1] % WRAP);
    BigEndianRoundTrip(o.fTx % WRAP);
  }

  /** The number of receivers less one is a field of four bits, from bit 3 of the last byte up. */
  function ReceiversIn(b: seq<Byte>): int
    requires |b| == 4
  {
    b[3] / 8 % 16 + 1
  }

  /** Three of them are sent, so the number can be read back if and only if it is at most eight. */
  lemma ReceiversSentIff(o: Options)
    requires Possible(o.nRx) && |o.fRx| == 12
    ensures ReceiversIn(SettingsOf(o, 0x00)) == o.nRx <==> o.nRx <= 8
  {
  }

  /** The hang time: bits 9 to 2 in the first byte, bits 1 and 0 in the second. */
  function HangTimeIn(b: seq<Byte>): int
    requires |b| == 4
  {
    b[0] * 4 + b[1] % 4
  }

  /** Ten bits less bit 2, which is masked away: the time can be read back if and only if it is made of those. */
  lemma HangTimeSentIff(o: Options)
    requires o.nRx <= |o.fRx| == 12
    ensures HangTimeIn(SettingsOf(o, 0x10)) == o.cwHangTime <==> 0 <= o.cwHangTime < 1024 && o.cwHangTime / 4 % 2 == 0
  {
    var x := o.cwHangTime;
    assert x == x / 8 * 8 + x / 4 % 2 * 4 + x % 4;
  }

  /** Bit n of a byte, with its worth 2^n given. */
  predicate Bit(b: int, worth: nat)
    requires 0 < worth
  {
    b / worth % 2 == 1
  }

  predicate Flag(x: int) {
    x % 2 == 1
  }

  /** Register 0: two bits of speed, seven of filters, and the flags, each where the register has it. */
  lemma SpeedAndFiltersSent(o: Options)
    requires o.nRx <= |o.fRx| == 12
    ensures var b := SettingsOf(o, 0x00);
      && b[0] == o.speedBits % 4 && b[1] == o.filters % 128 * 2
      && (Bit(b[2], 16) <==> Flag(o.notSync)) && (Bit(b[2], 4) <==> Flag(o.vnaFixedRxGain))
      && (Bit(b[3], 4) <==> Flag(o.duplex))
  {
  }

  /** Register 9: the level, the flags, and either the count of the analyser or the two filters. */
  lemma LevelAndFlagsSent(o: Options)
    requires o.nRx <= |o.fRx| == 12
    ensures var b := SettingsOf(o, 0x09);
      && b[0] == o.level % 256
      && (Bit(b[1], 128) <==> Flag(o.vna)) && (Bit(b[1], 64) <==> Flag(o.alexManualMode))
      && (Bit(b[1], 16) <==> Flag(o.tuneRequest))
      && (Bit(b[1], 8) <==> Flag(o.pa)) && (Bit(b[1], 4) <==> Flag(o.lowPwr))
      && (o.vna != 0 ==> b[2] * 256 + b[3] == o.vnaCount % 0x1_0000)
      && (o.vna == 0 ==> b[2] == o.i2cRxFilter % 256 && b[3] == o.i2cTxFilter % 256)
  {
    TwoBytes(o.vnaCount);
  }

  lemma TwoBytes(x: int)
    ensures x / 256 % 256 * 256 + x % 256 == x % 0x1_0000
  {
    var high, low := x / 256, x % 256;
    assert x == high / 256 * 0x1_0000 + high % 256 * 256 + low;
  }

  /** Register 0x0a: the flag beside the gain. */
  lemma PureSignalSent(o: Options)
    requires o.nRx <= |o.fRx| == 12
    ensures var b := SettingsOf(o, 0x0a);
      b[0] == b[2] == 0 && b[1] == if Flag(o.pureSignal) then 64 else 0
  {
  }

  /** Register 0x0f: the keyer's flag alone. */
  lemma CwxSent(o: Options)
    requires o.nRx <= |o.fRx| == 12
    ensures SettingsOf(o, 0x0f) == [if Flag(o.cwx) then 1 else 0, 0, 0, 0]
  {
  }

  /** Everything sent fits a byte. */
  lemma SettingsAreBytes(o: Options, c0: nat, k: nat)
    requires o.nRx <= |o.fRx| == 12 && k < 4
    ensures 0 <= SettingsOf(o, c0)[k] < 256
  {
    Powers();
  }

  lemma {:induction false} OrOfZero(a: nat, n: nat)
    requires a < Pow2(n)
    ensures Or(a, 0, n) == a
  {
    if n > 0 {
      OrOfZero(a / 2, n - 1);
    }
  }

  /** Where one has only zeroes in the lower bits and the other only in the upper, nothing is lost. */
  lemma {:induction false} OrOfParts(high: nat, low: nat, k: nat, n: nat)
    requires k <= n && low < Pow2(k) && high * Pow2(k) < Pow2(n)
    ensures Or(high * Pow2(k), low, n) == high * Pow2(k) + low
  {
    if k == 0 {
      OrOfZero(high, n);
    } else {
      assert high * Pow2(k) == 2 * (high * Pow2(k - 1));
      OrOfParts(high, low / 2, k - 1, n - 1);
    }
  }

  /**
   The gain of the amplifier comes back from the lower six bits, and whether it is the Hermes Lite's from the next,
   if and only if the gain is in the range of those six.
   */
  lemma GainSentIff(o: Options)
    requires o.nRx <= |o.fRx| == 12
    ensures var b := SettingsOf(o, 0x0a)[3];
      (b % 64 - 12 == o.lnaDb && b / 64 == o.hermesLiteLna % 2 <==> -12 <= o.lnaDb <= 51)
  {
    if -12 <= o.lnaDb <= 51 {
      FlagAndGain(o.hermesLiteLna % 2, o.lnaDb + 12);
    }
  }

  lemma FlagAndGain(flag: nat, gain: nat)
    requires flag < 2 && gain < 64
    ensures var b := Or(flag * 64, gain, 8);
      b % 64 == gain && b / 64 == flag
  {
    Powers();
    OrOfParts(flag, gain, 6, 8);
    ModOf(flag, gain, 64);
  }

  lemma Powers()
    ensures Pow2(6) == 64 && Pow2(8) == 256
  {
    assert Pow2(4) == 16;
  }
}
