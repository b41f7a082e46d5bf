/**
 sdrtcl/hl_udp_jack.c: sending, with the bytes of the packets.  Packets arrive with anything in them, the pump
 steps through their frames, and each transmit sample goes to the frame the pump is at.
 */
module SentPackets {
  import opened RingArithmetic
  import opened PacketRing
  import opened PacketPump
  import opened TxPacket

  // ---- the code ----

  /** Where the pump is in a packet to be sent: at a whole frame within one of the halves. */
  ghost predicate InPlace(c: Cursor) {
    c.udp.Some? ==>
      && c.usb in {0, 1} && c.limit == Base(c.usb) + PAYLOAD
      && Base(c.usb) <= c.i && c.i + STRIDE <= c.limit && (c.i - Base(c.usb)) % STRIDE == 0
  }

  /** The pump once a sample has been dealt with: it moves on only if there was a packet to put it into. */
  function AfterSample(c: Cursor): Stepped {
    if c.udp.None? then Stepped(c, []) else Finish(c, STRIDE)
  }

  lemma StaysInPlace(c: Cursor)
    requires InPlace(c)
    ensures InPlace(Start(c).c) && Start(c).finished == [] && InPlace(AfterSample(Start(c).c).c)
    ensures forall p :: p in Held(Start(c).c) + Start(c).c.rdy ==> p in Held(c) + c.rdy
    ensures var d := Start(c).c;
      forall p :: p in Held(AfterSample(d).c) + AfterSample(d).c.rdy ==> p in Held(d) + d.rdy
  {
  }

  /** The pump and the packets that go round, by their numbers. */
  datatype Bench = Bench(c: Cursor, pool: seq<seq<Byte>>)

  /** One transmit sample: it goes into the packet in hand, if there is one, and the pump moves on. */
  ghost predicate Sampled(b: Bench, s: Sample, e: Bench) {
    var c := Start(b.c).c;
    && e.c == AfterSample(c).c && |e.pool| == |b.pool|
    && forall p :: 0 <= p < |b.pool| ==> e.pool[p] == WithSample(b.pool[p], c, p, s)
  }

  class Sender {
    const pump: Pump
    // the packets that go round, by their numbers
    const pool: seq<array<Byte>>
    var sample: nat
    var overrun: nat

    ghost predicate Valid()
      reads this, pump, pump.rdy, pump.rdy.ring, pump.done, pump.done.ring
    {
      && pump.Valid() && pump.stride == STRIDE && InPlace(pump.Value())
      && (forall p :: p in Held(pump.Value()) + pump.Value().rdy ==> p < |pool|)
      && (forall p :: 0 <= p < |pool| ==> pool[p].Length == BYTES)
      && (forall p, q :: 0 <= p < q < |pool| ==> pool[p] != pool[q])
    }

    ghost function Value(): (b: Bench)
      requires Valid()
      reads this, pump, pump.rdy, pump.rdy.ring, pump.done, pump.done.ring, set p | 0 <= p < |pool| :: pool[p]
      ensures |b.pool| == |pool| && forall p :: 0 <= p < |pool| ==> b.pool[p] == pool[p][..]
    {
      Bench(pump.Value(),
            seq(|pool|, p requires 0 <= p < |pool| reads set q | 0 <= q < |pool| :: pool[q] => pool[p][..]))
    }

    constructor (pool: seq<array<Byte>>)
      requires forall p :: 0 <= p < |pool| ==> pool[p].Length == BYTES
      requires forall p, q :: 0 <= p < q < |pool| ==> pool[p] != pool[q]
      ensures Valid() && this.pool == pool && pump.Value() == AT_START && pump.done.Contents() == []
    {
      this.pool := pool;
      pump := new Pump(STRIDE);
      sample, overrun := 0, 0;
    }

    /** A transmit sample into the packet in hand. */
    method PutInHand(s: Sample)
      requires Valid() && pump.udp.Some? && ValidSample(s)
      modifies set p | 0 <= p < |pool| :: pool[p]
      ensures Valid() && pump.Value() == old(pump.Value()) && pump.done.Contents() == old(pump.done.Contents())
      ensures forall p :: 0 <= p < |pool| ==> pool[p][..] == WithSample(old(pool[p][..]), pump.Value(), p, s)
    {
      var p := pump.udp.value;
      assert p in Held(pump.Value()) + pump.Value().rdy;
      PutSample(pool[p], pump.i, s);
    }

    /** One transmit sample: into the packet in hand where the pump is, or lost if no packet is ready. */
    method TxIq(s: Sample, ghost c: Cursor)
      requires Valid() && |pump.done.Contents()| < SIZE - 1 && ValidSample(s) && c == Start(pump.Value()).c
      modifies this, pump, pump.rdy, pump.done, pump.done.ring, set p | 0 <= p < |pool| :: pool[p]
      ensures Valid() && Sampled(old(Value()), s, Value())
      ensures pump.done.Contents() == old(pump.done.Contents()) + AfterSample(c).finished
      ensures sample == old(sample) + (if c.udp.Some? then 1 else 0)
      ensures overrun == old(overrun) + (if c.udp.Some? then 0 else 1)
    {
      BeginSample(c);
      if pump.udp.None? {
        overrun := overrun + 1;
      } else {
        sample := sample + 1;
        DealWith(s);
      }
    }

    /** The sample into the packet in hand, and the pump on. */
    method DealWith(s: Sample)
      requires Valid() && |pump.done.Contents()| < SIZE - 1 && pump.udp.Some? && ValidSample(s)
      modifies pump, pump.rdy, pump.done, pump.done.ring, set p | 0 <= p < |pool| :: pool[p]
      ensures Valid() && pump.Value() == Finish(old(pump.Value()), STRIDE).c
      ensures pump.done.Contents() == old(pump.done.Contents()) + Finish(old(pump.Value()), STRIDE).finished
      ensures forall p :: 0 <= p < |pool| ==> pool[p][..] == WithSample(old(pool[p][..]), old(pump.Value()), p, s)
    {
      PutInHand(s);
      EndSample();
    }

    method BeginSample(ghost c: Cursor)
      requires Valid() && |pump.done.Contents()| < SIZE - 1 && c == Start(pump.Value()).c
      modifies pump, pump.rdy, pump.done, pump.done.ring
      ensures Valid() && pump.Value() == c && pump.done.Contents() == old(pump.done.Contents())
    {
      StaysInPlace(pump.Value());
      pump.FrameStart();
    }

    method EndSample()
      requires Valid() && |pump.done.Contents()| < SIZE - 1 && pump.udp.Some?
      modifies pump, pump.rdy, pump.done, pump.done.ring
      ensures Valid() && pump.Value() == Finish(old(pump.Value()), STRIDE).c
      ensures pump.done.Contents() == old(pump.done.Contents()) + Finish(old(pump.Value()), STRIDE).finished
    {
      StaysInPlace(pump.Value());
      pump.FrameFinish();
    }
  }

  /** What a packet holds after a sample: eight new bytes if it is the packet in hand. */
  function WithSample(b: seq<Byte>, c: Cursor, p: nat, s: Sample): seq<Byte> {
    if c.udp != Some(p) || c.i < 0 || |b| < c.i + STRIDE then b else Put(b, c.i, SampleBytes(s))
  }

  // ---- runs, with the bytes of the packets ----

  /** A packet that becomes ready, and what it holds. */
  datatype Parcel = Parcel(p: Packet, was: seq<Byte>)

  /** One frame: the packets that become ready before it and while it is handled, and the sample to be sent. */
  datatype Input = Input(before: seq<Parcel>, meanwhile: seq<Parcel>, sample: Sample)

  /**
   The pump, what every packet held on arrival and holds now, in the order they arrived, and the samples that
   found a packet to go to.
   */
  datatype Sending = Sending(s: Session, was: seq<seq<Byte>>, now: seq<seq<Byte>>, put: seq<Sample>)

  const IDLE := Sending(NEW, [], [], [])

  function Ids(ps: seq<Parcel>): (r: seq<Packet>)
    ensures |r| == |ps|
  {
    seq(|ps|, k requires 0 <= k < |ps| => ps[k].p)
  }

  function Contents(ps: seq<Parcel>): (r: seq<seq<Byte>>)
    ensures |r| == |ps| && forall k :: 0 <= k < |r| ==> r[k] == ps[k].was
  {
    seq(|ps|, k requires 0 <= k < |ps| => ps[k].was)
  }

  function ArrivalOf(i: Input): Arrival {
    Arrival(Ids(i.before), Ids(i.meanwhile))
  }

  function Joined(f: Sending, ps: seq<Parcel>): Sending {
    f.(was := f.was + Contents(ps), now := f.now + Contents(ps))
  }

  /** The sample goes into the packet in hand, which is the first that has not been put away. */
  function Written(f: Sending, c: Cursor, at: nat, sample: Sample): Sending {
    if c.udp.None? || |f.now| <= at then f
    else f.(now := f.now[at := WithSample(f.now[at], c, c.udp.value, sample)], put := f.put + [sample])
  }

  function Send(f: Sending, i: Input): Sending {
    var s1 := Begun(f.s, Ids(i.before));
    var f1 := Joined(Written(Joined(f, i.before), s1.c, |s1.finished|, i.sample), i.meanwhile);
    f1.(s := OneFrame(f.s, STRIDE, ArrivalOf(i), false))
  }

  ghost function SendAll(inputs: seq<Input>): Sending {
    if inputs == [] then IDLE else Send(SendAll(inputs[..|inputs| - 1]), inputs[|inputs| - 1])
  }

  /** Every packet is 1032 bytes long. */
  ghost predicate Sized(ps: seq<Parcel>) {
    forall k :: 0 <= k < |ps| ==> |ps[k].was| == BYTES
  }

  ghost predicate AllSized(inputs: seq<Input>) {
    forall k :: 0 <= k < |inputs| ==> Sized(inputs[k].before) && Sized(inputs[k].meanwhile)
  }

  // ---- how many samples the pump has asked for ----

  lemma {:induction false} HalfLength(p: Packet, usb: int, k: nat)
    ensures |Half(p, usb, STRIDE, k)| == k
  {
    if k > 0 {
      HalfLength(p, usb, k - 1);
    }
  }

  lemma PerHalfIs()
    ensures Fits(STRIDE) && PerHalf(STRIDE) == 63
  {
    StridesFit(1);
  }

  lemma {:induction false} FramesLength(ps: seq<Packet>)
    ensures |Frames(ps, STRIDE)| == 126 * |ps|
  {
    if ps != [] {
      FramesLength(ps[..|ps| - 1]);
      FramesArePlaces(ps[|ps| - 1], 0);
    }
  }

  /** Samples put into the packet in hand at frame k of a half. */
  function InHand(c: Cursor, k: nat): nat {
    if c.udp.None? then 0 else if c.usb == 0 then k else 63 + k
  }

  lemma SamplesAsked(s: Session, k: nat)
    requires InOrder(s, STRIDE, k)
    ensures |Kept(s.taken)| == 126 * |s.finished| + InHand(s.c, k)
    ensures s.c.udp.Some? ==> InHand(s.c, k) < 126 && s.c.i == Place(InHand(s.c, k))
  {
    PerHalfIs();
    FramesLength(s.finished);
    if s.c.udp.Some? {
      HalfLength(s.c.udp.value, 0, if s.c.usb == 0 then k else 63);
      HalfLength(s.c.udp.value, 1, k);
    }
  }

  // ---- what every packet holds ----

  function Least(a: nat, b: nat): nat {
    if a < b then a else b
  }

  /** The samples that belong to packet j, as far as they have been put. */
  function Share(put: seq<Sample>, j: nat): (r: seq<Sample>)
    ensures |r| <= 126
  {
    put[Least(126 * j, |put|)..Least(126 * j + 126, |put|)]
  }

  ghost predicate Holds(f: Sending, j: nat) {
    && j < |f.now| == |f.was| && |f.was[j]| == BYTES
    && f.now[j] == Filled(f.was[j], Share(f.put, j))
  }

  /** One packet to each that arrived, holding what it held then with its share of the samples put in. */
  ghost predicate Kempt(f: Sending) {
    && |f.was| == |f.now| == |f.s.all|
    && |f.put| == |Kept(f.s.taken)|
    && forall j :: 0 <= j < |f.now| ==> Holds(f, j)
  }

  /** New packets have no share yet. */
  lemma JoinedHolds(f: Sending, ps: seq<Parcel>, j: nat)
    requires Sized(ps) && |f.was| == |f.now| && |f.put| <= 126 * |f.now| && j < |f.now| + |ps|
    requires j < |f.now| ==> Holds(f, j)
    ensures Holds(Joined(f, ps), j)
  {
    if j >= |f.now| {
      assert Share(f.put, j) == [];
    }
  }

  lemma ShareGrows(put: seq<Sample>, sample: Sample, at: nat, n: nat, j: nat)
    requires |put| == 126 * at + n && n < 126
    ensures Share(put + [sample], j) == if j == at then Share(put, j) + [sample] else Share(put, j)
    ensures j == at ==> |Share(put, j)| == n
  {
    if j < at {
      assert 126 * j + 126 <= |put|;
    } else if j == at {
      assert Share(put, j) == put[126 * at..] && Share(put + [sample], j) == (put + [sample])[126 * at..];
    } else {
      assert |put| + 1 <= 126 * j;
      assert Share(put, j) == [] == Share(put + [sample], j);
    }
  }

  lemma WrittenHolds(f: Sending, c: Cursor, at: nat, n: nat, sample: Sample, j: nat)
    requires c.udp.Some? && at < |f.now| && n < 126 && c.i == Place(n) && |f.put| == 126 * at + n
    requires Holds(f, at) && Holds(f, j)
    ensures Written(f, c, at, sample).put == f.put + [sample]
    ensures Holds(Written(f, c, at, sample), j)
  {
    ShareGrows(f.put, sample, at, n, j);
    if j == at {
      OneIsWritten(f.was[at], f.now[at], Share(f.put, at), c, sample);
    }
  }

  lemma OneIsWritten(was: seq<Byte>, now: seq<Byte>, share: seq<Sample>, c: Cursor, sample: Sample)
    requires |was| == BYTES && |share| < 126 && now == Filled(was, share) && c.udp.Some? && c.i == Place(|share|)
    ensures WithSample(now, c, c.udp.value, sample) == Filled(was, share + [sample])
  {
    FilledNext(was, share, sample, share + [sample]);
  }

  /** There is a packet for every sample that has been asked for. */
  lemma RoomForAll(s: Session, k: nat)
    requires InOrder(s, STRIDE, k)
    ensures |Kept(s.taken)| <= 126 * |s.all|
    ensures s.c.udp.Some? ==> |s.finished| < |s.all| && |Kept(s.taken)| < 126 * |s.finished| + 126
  {
    SamplesAsked(s, k);
    assert |s.all| == |s.finished| + |Held(s.c)| + |s.c.rdy|;
  }

  /** What a frame does to the account of packets and samples, before the pump moves on. */
  ghost predicate Balanced(f: Sending, all: seq<Packet>, samples: nat) {
    && |f.was| == |f.now| == |all| && |f.put| == samples
    && forall j :: 0 <= j < |f.now| ==> Holds(f, j)
  }

  lemma JoinedBalanced(f: Sending, ps: seq<Parcel>, all: seq<Packet>, samples: nat)
    requires Balanced(f, all, samples) && Sized(ps) && samples <= 126 * |all|
    ensures Balanced(Joined(f, ps), all + Ids(ps), samples)
  {
    forall j | 0 <= j < |f.now| + |ps| ensures Holds(Joined(f, ps), j) {
      JoinedHolds(f, ps, j);
    }
  }

  lemma WrittenBalanced(f: Sending, s: Session, k: nat, sample: Sample)
    requires InOrder(s, STRIDE, k) && Balanced(f, s.all, |Kept(s.taken)|)
    ensures Balanced(Written(f, s.c, |s.finished|, sample), s.all, |Kept(s.taken + [Taken(s.c)])|)
  {
    var at := |s.finished|;
    KeptOne(s.taken, Taken(s.c));
    RoomForAll(s, k);
    SamplesAsked(s, k);
    if s.c.udp.Some? {
      assert Holds(f, at);
      forall j | 0 <= j < |f.now| ensures Holds(Written(f, s.c, at, sample), j) {
        WrittenHolds(f, s.c, at, InHand(s.c, k), sample, j);
      }
    }
  }

  lemma SendKeeps(f: Sending, i: Input, k: nat) returns (k': nat)
    requires Kempt(f) && InOrder(f.s, STRIDE, k) && Sized(i.before) && Sized(i.meanwhile)
    ensures Kempt(Send(f, i)) && InOrder(Send(f, i).s, STRIDE, k')
  {
    PerHalfIs();
    var s1 := Begun(f.s, Ids(i.before));
    RoomForAll(f.s, k);
    JoinedBalanced(f, i.before, f.s.all, |f.put|);
    k' := StartKeeps(f.s, STRIDE, k, Ids(i.before));
    var f1 := Written(Joined(f, i.before), s1.c, |s1.finished|, i.sample);
    WrittenBalanced(Joined(f, i.before), s1, k', i.sample);
    RoomForAll(s1, k');
    KeptOne(s1.taken, Taken(s1.c));
    JoinedBalanced(f1, i.meanwhile, s1.all, |Kept(s1.taken + [Taken(s1.c)])|);
    TakeKeeps(s1, STRIDE, k', Ids(i.meanwhile));
    if s1.c.udp.Some? {
      k' := EndKeeps(Took(s1, Ids(i.meanwhile)), STRIDE, k');
    }
    SameAccount(Joined(f1, i.meanwhile), Send(f, i));
  }

  lemma SameAccount(f: Sending, g: Sending)
    requires g == f.(s := g.s) && forall j :: 0 <= j < |f.now| ==> Holds(f, j)
    ensures forall j :: 0 <= j < |g.now| ==> Holds(g, j)
  {
    forall j | 0 <= j < |g.now| ensures Holds(g, j) {
      assert Holds(f, j);
    }
  }

  lemma {:induction false} SendAllKeeps(inputs: seq<Input>) returns (k: nat)
    requires AllSized(inputs)
    ensures Kempt(SendAll(inputs)) && InOrder(SendAll(inputs).s, STRIDE, k)
  {
    k := 0;
    if inputs != [] {
      k := SendAllKeeps(inputs[..|inputs| - 1]);
      k := SendKeeps(SendAll(inputs[..|inputs| - 1]), inputs[|inputs| - 1], k);
    }
  }

  // ---- what that means ----

  function Arrivals(inputs: seq<Input>): (r: seq<Arrival>)
    ensures |r| == |inputs|
  {
    seq(|inputs|, k requires 0 <= k < |inputs| => ArrivalOf(inputs[k]))
  }

  /** Sending with bytes is sending without them. */
  lemma {:induction false} SameRun(inputs: seq<Input>)
    ensures SendAll(inputs).s == Run(STRIDE, Arrivals(inputs), false)
  {
    if inputs != [] {
      SameRun(inputs[..|inputs| - 1]);
      assert Arrivals(inputs)[..|inputs| - 1] == Arrivals(inputs[..|inputs| - 1]);
    }
  }

  lemma {:induction false} FrameOfPacket(ps: seq<Packet>, i: nat, n: nat)
    requires i < |ps| && n < 126
    ensures 126 * i + n < |Frames(ps, STRIDE)| && Frames(ps, STRIDE)[126 * i + n] == Frame(ps[i], Place(n))
  {
    var m := |ps| - 1;
    FramesLength(ps);
    FramesLength(ps[..m]);
    if i < m {
      FrameOfPacket(ps[..m], i, n);
    } else {
      FramesArePlaces(ps[m], n);
    }
  }

  /** Every packet put away has been written at each of its 126 places, in order. */
  lemma EveryPlaceWritten(arrivals: seq<Arrival>, i: nat, n: nat)
    requires i < |Run(STRIDE, arrivals, false).finished| && n < 126
    ensures var s := Run(STRIDE, arrivals, false);
      126 * i + n < |Kept(s.taken)| && Kept(s.taken)[126 * i + n] == Frame(s.finished[i], Place(n))
  {
    PerHalfIs();
    FramesInOrder(STRIDE, arrivals, false);
    FrameOfPacket(Run(STRIDE, arrivals, false).finished, i, n);
  }

  /** The 126 samples of packet i, out of all that were put. */
  function SamplesOf(put: seq<Sample>, i: nat): seq<Sample>
    requires 126 * i + 126 <= |put|
  {
    put[126 * i..126 * i + 126]
  }

  /**
   Nothing received is ever sent back.  However packets arrive and whatever they hold, every packet that the pump
   has put away and that is then stamped is made of its own 126 samples and its headers and nothing else.
   */
  lemma NothingLeaks(inputs: seq<Input>, i: nat, sequence: nat, first: seq<Byte>, second: seq<Byte>)
    requires AllSized(inputs) && i < |SendAll(inputs).s.finished| && |first| == |second| == 8
    ensures var f := SendAll(inputs);
      && i < |f.now| && |f.now[i]| == BYTES && 126 * i + 126 <= |f.put|
      && Stamped(f.now[i], sequence, first, second) == Finished(SamplesOf(f.put, i), sequence, first, second)
  {
    var f := SendAll(inputs);
    var k := SendAllKeeps(inputs);
    PutAwayIsFull(f, k, i);
    NothingLeftOver(f.was[i], SamplesOf(f.put, i), sequence, first, second);
  }

  ghost predicate AllValid(inputs: seq<Input>) {
    forall k :: 0 <= k < |inputs| ==> ValidSample(inputs[k].sample)
  }

  lemma {:induction false} PutAreValid(inputs: seq<Input>)
    requires AllValid(inputs)
    ensures forall n :: 0 <= n < |SendAll(inputs).put| ==> ValidSample(SendAll(inputs).put[n])
  {
    if inputs != [] {
      PutAreValid(inputs[..|inputs| - 1]);
    }
  }

  /**
   Over every run, sample n of a packet put away and stamped can be read back from it: both its parts, and
   silence.
   */
  lemma SentReadsBack(inputs: seq<Input>, i: nat, n: nat, sequence: nat, first: seq<Byte>, second: seq<Byte>)
    requires AllSized(inputs) && AllValid(inputs) && i < |SendAll(inputs).s.finished| && n < 126
    requires |first| == |second| == 8
    ensures var f := SendAll(inputs);
      && i < |f.now| && |f.now[i]| == BYTES && 126 * i + n < |f.put|
      && ReadsAs(Stamped(f.now[i], sequence, first, second), Place(n), f.put[126 * i + n])
  {
    NothingLeaks(inputs, i, sequence, first, second);
    PutAreValid(inputs);
    var f := SendAll(inputs);
    ShareReadsBack(Stamped(f.now[i], sequence, first, second), f.put, i, sequence, first, second, n);
  }

  lemma ShareReadsBack(b: seq<Byte>, put: seq<Sample>, i: nat, sequence: nat, first: seq<Byte>, second: seq<Byte>,
                       n: nat)
    requires 126 * i + 126 <= |put| && |first| == |second| == 8 && n < 126
    requires b == Finished(SamplesOf(put, i), sequence, first, second)
    requires forall m :: 0 <= m < |put| ==> ValidSample(put[m])
    ensures ReadsAs(b, Place(n), put[126 * i + n])
  {
    PacketReadsBack(SamplesOf(put, i), sequence, first, second, n);
  }

  /** A packet that has been put away has its whole share. */
  lemma PutAwayIsFull(f: Sending, k: nat, i: nat)
    requires Kempt(f) && InOrder(f.s, STRIDE, k) && i < |f.s.finished|
    ensures i < |f.now| && 126 * i + 126 <= |f.put| && |f.was[i]| == BYTES
    ensures f.now[i] == Filled(f.was[i], SamplesOf(f.put, i))
  {
    SamplesAsked(f.s, k);
    assert |f.s.all| == |f.s.finished| + |Held(f.s.c)| + |f.s.c.rdy|;
    assert Holds(f, i);
    assert Share(f.put, i) == SamplesOf(f.put, i);
  }

  /** The samples that were put are those of the frames for which there was a packet, in order. */
  function Placed(taken: seq<Read>, samples: seq<Sample>): seq<Sample>
    requires |taken| == |samples|
  {
    if taken == [] then [] else
      var n := |taken| - 1;
      Placed(taken[..n], samples[..n]) + if taken[n].Nothing? then [] else [samples[n]]
  }

  function SamplesIn(inputs: seq<Input>): (r: seq<Sample>)
    ensures |r| == |inputs|
  {
    seq(|inputs|, k requires 0 <= k < |inputs| => inputs[k].sample)
  }

  lemma {:induction false} PutAreOffered(inputs: seq<Input>)
    requires AllSized(inputs)
    ensures var f := SendAll(inputs);
      |f.s.taken| == |inputs| && f.put == Placed(f.s.taken, SamplesIn(inputs))
  {
    if inputs != [] {
      var n := |inputs| - 1;
      var f, i := SendAll(inputs[..n]), inputs[n];
      PutAreOffered(inputs[..n]);
      var k := SendAllKeeps(inputs[..n]);
      OnePut(f, i, k);
      var taken := Send(f, i).s.taken;
      assert taken[..n] == f.s.taken;
      assert SamplesIn(inputs)[..n] == SamplesIn(inputs[..n]);
    }
  }

  lemma OnePut(f: Sending, i: Input, k: nat)
    requires Kempt(f) && InOrder(f.s, STRIDE, k) && Sized(i.before) && Sized(i.meanwhile)
    ensures var read := Taken(Begun(f.s, Ids(i.before)).c);
      && Send(f, i).s.taken == f.s.taken + [read]
      && Send(f, i).put == f.put + if read.Nothing? then [] else [i.sample]
  {
    PerHalfIs();
    var s1 := Begun(f.s, Ids(i.before));
    RoomForAll(f.s, k);
    JoinedBalanced(f, i.before, f.s.all, |f.put|);
    var k1 := StartKeeps(f.s, STRIDE, k, Ids(i.before));
    WrittenBalanced(Joined(f, i.before), s1, k1, i.sample);
    KeptOne(s1.taken, Taken(s1.c));
    assert s1.taken == f.s.taken;
  }
}
