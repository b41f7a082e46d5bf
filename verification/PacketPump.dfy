/** sdrtcl/hl_udp_jack.c: stepping through the sample frames of packets, received or to be sent. */
module PacketPump {
  import opened PacketRing

  datatype Option<T> = None | Some(value: T)

  /** Two USB packets of 504 sample bytes in each UDP packet. */
  const PAYLOAD := 504

  function Base(usb: int): int {
    if usb == 0 then 16 else 528
  }

  /** The packet in hand, where in it, and the packets that are ready. */
  datatype Cursor = Cursor(udp: Option<Packet>, i: int, limit: int, usb: int, rdy: seq<Packet>)

  const AT_START := Cursor(None, 0, 0, 1, [])

  /** A cursor, and the packets finished on the way to it. */
  datatype Stepped = Stepped(c: Cursor, finished: seq<Packet>)

  function Held(c: Cursor): seq<Packet> {
    if c.udp.Some? then [c.udp.value] else []
  }

  /** The second half of the packet, or the next packet if there is one. */
  function Next(c: Cursor): Stepped {
    if c.usb == 0 then Stepped(c.(usb := 1, i := Base(1), limit := Base(1) + PAYLOAD), [])
    else if c.rdy == [] then Stepped(c.(udp := None), Held(c))
    else Stepped(Cursor(Some(c.rdy[0]), Base(0), Base(0) + PAYLOAD, 0, c.rdy[1..]), Held(c))
  }

  function Start(c: Cursor): Stepped {
    if c.udp.None? then Next(c) else Stepped(c, [])
  }

  function Finish(c: Cursor, stride: int): Stepped {
    var c1 := c.(i := c.i + stride);
    if c1.i + stride - 1 > c1.limit then Next(c1) else Stepped(c1, [])
  }

  class Pump {
    const stride: int
    var udp: Option<Packet>
    var i: int
    var limit: int
    var usb: int
    const rdy: Ring
    const done: Ring

    ghost predicate Valid()
      reads this, rdy, rdy.ring, done, done.ring
    {
      rdy != done && rdy.ring != done.ring && rdy.Valid() && done.Valid()
    }

    ghost function Value(): Cursor
      requires Valid()
      reads this, rdy, rdy.ring, done, done.ring
    {
      Cursor(udp, i, limit, usb, rdy.Contents())
    }

    constructor (stride: int)
      ensures Valid() && Value() == AT_START && this.stride == stride && done.Contents() == []
    {
      this.stride := stride;
      udp, i, limit, usb := None, 0, 0, 1;
      rdy := new Ring();
      done := new Ring();
    }

    /** With room for the packet in hand among the finished ones. */
    method PacketNext()
      requires Valid() && |done.Contents()| < SIZE - 1
      modifies this, rdy, done, done.ring
      ensures Valid() && Value() == Next(old(Value())).c
      ensures done.Contents() == old(done.Contents()) + Next(old(Value())).finished
    {
      if usb == 0 {
        usb := 1;
        i := 528;
        limit := 528 + 504;
      } else {
        PutAway();
        TakeReady();
      }
    }

    method PutAway()
      requires Valid() && |done.Contents()| < SIZE - 1
      modifies `udp, done, done.ring
      ensures Valid() && Value() == old(Value()).(udp := None)
      ensures done.Contents() == old(done.Contents()) + Held(old(Value()))
    {
      if udp.Some? {
        var room := done.CanWrite();
        if room != 0 { done.Write(udp.value); }
        udp := None;
      }
    }

    method TakeReady()
      requires Valid() && udp.None?
      modifies this, rdy
      ensures Valid() && done.Contents() == old(done.Contents())
      ensures var c := old(Value());
        Value() == if c.rdy == [] then c else Cursor(Some(c.rdy[0]), Base(0), Base(0) + PAYLOAD, 0, c.rdy[1..])
    {
      var n := rdy.CanRead();
      if n != 0 {
        var p := rdy.Read();
        udp := Some(p);
        usb := 0;
        i := 16;
        limit := 16 + 504;
      }
    }

    /** The start of a frame: nothing to read from if no packet is ready. */
    method FrameStart()
      requires Valid() && |done.Contents()| < SIZE - 1
      modifies this, rdy, done, done.ring
      ensures Valid() && Value() == Start(old(Value())).c
      ensures done.Contents() == old(done.Contents()) + Start(old(Value())).finished
    {
      if udp.None? { PacketNext(); }
    }

    method FrameFinish()
      requires Valid() && |done.Contents()| < SIZE - 1
      modifies this, rdy, done, done.ring
      ensures Valid() && Value() == Finish(old(Value()), stride).c
      ensures done.Contents() == old(done.Contents()) + Finish(old(Value()), stride).finished
    {
      i := i + stride;
      if i + stride - 1 > limit { PacketNext(); }
    }
  }

  // ---- runs, with packets arriving at any time ----

  /** What is read at a frame: nothing, or the frame at an offset into a packet. */
  datatype Read = Nothing | Frame(p: Packet, at: int)

  /** Packets that become ready before a frame, and while it is being handled. */
  datatype Arrival = Arrival(before: seq<Packet>, meanwhile: seq<Packet>)

  /** The cursor, all that was read, all that was finished, and all that ever arrived. */
  datatype Session = Session(c: Cursor, taken: seq<Read>, finished: seq<Packet>, all: seq<Packet>)

  const NEW := Session(AT_START, [], [], [])

  function Fed(c: Cursor, ps: seq<Packet>): Cursor {
    c.(rdy := c.rdy + ps)
  }

  function Taken(c: Cursor): Read {
    if c.udp.Some? then Frame(c.udp.value, c.i) else Nothing
  }

  /** A frame received, or one sent; only receiving counts on when there is no packet. */
  function OneFrame(s: Session, stride: int, a: Arrival, receiving: bool): Session {
    var s1 := Begun(s, a.before);
    var s2 := Took(s1, a.meanwhile);
    if receiving || s2.c.udp.Some? then Ended(s2, stride) else s2
  }

  function Begun(s: Session, before: seq<Packet>): Session {
    var t := Start(Fed(s.c, before));
    Session(t.c, s.taken, s.finished + t.finished, s.all + before)
  }

  function Took(s: Session, meanwhile: seq<Packet>): Session {
    Session(Fed(s.c, meanwhile), s.taken + [Taken(s.c)], s.finished, s.all + meanwhile)
  }

  function Ended(s: Session, stride: int): Session {
    var t := Finish(s.c, stride);
    Session(t.c, s.taken, s.finished + t.finished, s.all)
  }

  ghost function Run(stride: int, arrivals: seq<Arrival>, receiving: bool): Session {
    if arrivals == [] then NEW
    else OneFrame(Run(stride, arrivals[..|arrivals| - 1], receiving), stride, arrivals[|arrivals| - 1], receiving)
  }

  // ---- what should be read ----

  /** Frames fit into a half a whole number of times, or with bytes left over. */
  function PerHalf(stride: int): nat
    requires 0 < stride
  {
    PAYLOAD / stride
  }

  /** Even strides, as all strides are: 8 for sending, 6n+2 for receiving. */
  predicate Fits(stride: int) {
    0 < stride <= PAYLOAD && stride % 2 == 0
  }

  function Half(p: Packet, usb: int, stride: int, k: nat): seq<Read> {
    if k == 0 then [] else Half(p, usb, stride, k - 1) + [Frame(p, Base(usb) + (k - 1) * stride)]
  }

  function Whole(p: Packet, stride: int): seq<Read>
    requires 0 < stride
  {
    Half(p, 0, stride, PerHalf(stride)) + Half(p, 1, stride, PerHalf(stride))
  }

  /** Every frame of every packet in turn. */
  function Frames(ps: seq<Packet>, stride: int): seq<Read>
    requires 0 < stride
  {
    if ps == [] then [] else Frames(ps[..|ps| - 1], stride) + Whole(ps[|ps| - 1], stride)
  }

  /** The frames of the packet in hand up to frame k of a half. */
  function Part(p: Packet, usb: int, stride: int, k: nat): seq<Read>
    requires 0 < stride
  {
    if usb == 0 then Half(p, 0, stride, k) else Half(p, 0, stride, PerHalf(stride)) + Half(p, 1, stride, k)
  }

  /** What was read, without the frames for which there was nothing. */
  function Kept(taken: seq<Read>): seq<Read> {
    if taken == [] then []
    else Kept(taken[..|taken| - 1]) + if taken[|taken| - 1].Nothing? then [] else [taken[|taken| - 1]]
  }

  /** At frame k of a half of the packet in hand. */
  ghost predicate At(c: Cursor, stride: int, k: nat)
    requires 0 < stride
  {
    c.usb in {0, 1} && c.i == Base(c.usb) + k * stride && c.limit == Base(c.usb) + PAYLOAD && k < PerHalf(stride)
  }

  /** Nothing lost, nothing read twice, everything in order. */
  ghost predicate InOrder(s: Session, stride: int, k: nat)
    requires 0 < stride
  {
    && s.finished + Held(s.c) + s.c.rdy == s.all
    && match s.c.udp
       case None => s.c.usb == 1 && Kept(s.taken) == Frames(s.finished, stride)
       case Some(p) => At(s.c, stride, k) && Kept(s.taken) == Frames(s.finished, stride) + Part(p, s.c.usb, stride, k)
  }

  lemma Multiplied(a: nat, b: nat, stride: nat)
    requires a <= b
    ensures a * stride <= b * stride
  {
    assert b * stride == a * stride + (b - a) * stride;
  }

  lemma EvenMultiple(n: nat, stride: nat)
    requires stride % 2 == 0
    ensures (n * stride) % 2 == 0
  {
    var half := stride / 2;
    assert n * stride == 2 * (n * half);
  }

  lemma LastMultiple(stride: nat)
    requires 0 < stride
    ensures PerHalf(stride) * stride <= PAYLOAD < (PerHalf(stride) + 1) * stride
  {
  }

  /** A half ends after the last whole frame: no frame could end on the byte after the samples. */
  lemma HalfFits(stride: nat, k: nat)
    requires Fits(stride) && k < PerHalf(stride)
    ensures (k + 1) * stride <= PAYLOAD
    ensures (k + 1) * stride + stride - 1 > PAYLOAD <==> k + 1 == PerHalf(stride)
  {
    var n := PerHalf(stride);
    LastMultiple(stride);
    Multiplied(k + 1, n, stride);
    assert (k + 2) * stride == (k + 1) * stride + stride;
    if k + 1 < n {
      Multiplied(k + 2, n, stride);
    } else {
      EvenMultiple(n + 1, stride);
    }
  }

  /** A packet is taken in hand if there is none and one is ready. */
  lemma StartKeeps(s: Session, stride: int, k: nat, before: seq<Packet>) returns (k': nat)
    requires Fits(stride) && InOrder(s, stride, k)
    ensures InOrder(Begun(s, before), stride, k')
    ensures var s' := Begun(s, before);
      s'.c.udp.None? ==> s'.finished == s'.all && s'.c.rdy == []
  {
    k' := if s.c.udp.None? then 0 else k;
    var fed := s.c.rdy + before;
    assert s.finished + Held(s.c) + fed == s.all + before;
    assert s.finished + [] == s.finished;
    if s.c.udp.None? && fed != [] {
      TakesNext(s.finished, fed, stride);
    }
  }

  lemma TakesNext(finished: seq<Packet>, rdy: seq<Packet>, stride: int)
    requires 0 < stride <= PAYLOAD && rdy != []
    ensures Frames(finished, stride) + Part(rdy[0], 0, stride, 0) == Frames(finished, stride) && 0 < PerHalf(stride)
    ensures finished + [rdy[0]] + rdy[1..] == finished + rdy
  {
  }

  /** As InOrder, once frame k has been taken. */
  ghost predicate Consumed(s: Session, stride: int, k: nat)
    requires 0 < stride
  {
    && s.finished + Held(s.c) + s.c.rdy == s.all
    && match s.c.udp
       case None => s.c.usb == 1 && Kept(s.taken) == Frames(s.finished, stride)
       case Some(p) =>
         && At(s.c, stride, k)
         && Kept(s.taken) == Frames(s.finished, stride) + Part(p, s.c.usb, stride, k + 1)
  }

  lemma KeptOne(taken: seq<Read>, r: Read)
    ensures Kept(taken + [r]) == Kept(taken) + if r.Nothing? then [] else [r]
  {
    assert (taken + [r])[..|taken|] == taken;
  }

  lemma ReadsAssociate(a: seq<Read>, b: seq<Read>, c: seq<Read>)
    ensures (a + b) + c == a + (b + c)
  {
  }

  lemma PartGrows(p: Packet, usb: int, stride: int, k: nat, at: int)
    requires 0 < stride && usb in {0, 1} && at == Base(usb) + k * stride
    ensures Part(p, usb, stride, k + 1) == Part(p, usb, stride, k) + [Frame(p, at)]
  {
    ReadsAssociate(Half(p, 0, stride, PerHalf(stride)), Half(p, 1, stride, k), [Frame(p, at)]);
  }

  lemma TakeKeeps(s: Session, stride: int, k: nat, meanwhile: seq<Packet>)
    requires Fits(stride) && InOrder(s, stride, k)
    ensures Consumed(Took(s, meanwhile), stride, k)
  {
    KeptOne(s.taken, Taken(s.c));
    assert s.finished + Held(s.c) + (s.c.rdy + meanwhile) == s.all + meanwhile;
    if s.c.udp.Some? {
      var p := s.c.udp.value;
      PartGrows(p, s.c.usb, stride, k, s.c.i);
      ReadsAssociate(Frames(s.finished, stride), Part(p, s.c.usb, stride, k), [Frame(p, s.c.i)]);
    }
  }

  /** The last frame of a packet makes it whole. */
  lemma PacketWhole(finished: seq<Packet>, p: Packet, stride: int)
    requires 0 < stride
    ensures Frames(finished + [p], stride) == Frames(finished, stride) + Part(p, 1, stride, PerHalf(stride))
  {
    assert (finished + [p])[..|finished|] == finished;
  }

  lemma SecondHalf(p: Packet, stride: int)
    requires 0 < stride
    ensures Part(p, 1, stride, 0) == Part(p, 0, stride, PerHalf(stride))
  {
    var half := Half(p, 0, stride, PerHalf(stride));
    assert half + [] == half;
  }

  lemma EndKeeps(s: Session, stride: int, k: nat) returns (k': nat)
    requires Fits(stride) && Consumed(s, stride, k)
    ensures InOrder(Ended(s, stride), stride, k')
  {
    assert s.finished + [] == s.finished;
    k' := 0;
    match s.c.udp {
      case None => EmptyKeeps(s, stride);
      case Some(p) =>
        HalfFits(stride, k);
        assert (k + 1) * stride == k * stride + stride;
        if k + 1 < PerHalf(stride) {
          k' := k + 1;
        } else if s.c.usb == 0 {
          SecondHalf(p, stride);
          LastMultiple(stride);
        } else {
          PacketEnds(s, stride, p);
        }
    }
  }

  lemma EmptyKeeps(s: Session, stride: int)
    requires Fits(stride) && s.c.udp.None? && Consumed(s, stride, 0)
    ensures InOrder(Ended(s, stride), stride, 0)
  {
    assert s.finished + [] == s.finished;
    if s.c.rdy != [] {
      TakesNext(s.finished, s.c.rdy, stride);
    }
  }

  lemma PacketEnds(s: Session, stride: int, p: Packet)
    requires Fits(stride) && s.c.udp == Some(p) && s.c.usb == 1
    requires s.finished + [p] + s.c.rdy == s.all && s.c.i + stride + stride - 1 > s.c.limit
    requires Kept(s.taken) == Frames(s.finished, stride) + Part(p, 1, stride, PerHalf(stride))
    ensures InOrder(Ended(s, stride), stride, 0)
  {
    PacketWhole(s.finished, p, stride);
    if s.c.rdy != [] {
      TakesNext(s.finished + [p], s.c.rdy, stride);
      assert s.finished + [p] + s.c.rdy == s.all;
    }
  }

  /** Any run of frames keeps everything in order. */
  lemma {:induction false} RunKeeps(stride: int, arrivals: seq<Arrival>, receiving: bool) returns (k: nat)
    requires Fits(stride)
    ensures InOrder(Run(stride, arrivals, receiving), stride, k)
  {
    k := 0;
    if arrivals != [] {
      var s, a := Run(stride, arrivals[..|arrivals| - 1], receiving), arrivals[|arrivals| - 1];
      k := RunKeeps(stride, arrivals[..|arrivals| - 1], receiving);
      k := StartKeeps(s, stride, k, a.before);
      var s1 := Begun(s, a.before);
      TakeKeeps(s1, stride, k, a.meanwhile);
      if receiving || s1.c.udp.Some? {
        k := EndKeeps(Took(s1, a.meanwhile), stride, k);
      }
    }
  }

  // ---- what that means ----

  lemma {:induction false} FramesConcat(a: seq<Packet>, b: seq<Packet>, stride: int)
    requires 0 < stride
    ensures Frames(a + b, stride) == Frames(a, stride) + Frames(b, stride)
  {
    if b == [] {
      assert a + b == a;
    } else {
      var m := |b| - 1;
      FramesConcat(a, b[..m], stride);
      assert (a + b)[..|a + b| - 1] == a + b[..m];
      ReadsAssociate(Frames(a, stride), Frames(b[..m], stride), Whole(b[m], stride));
    }
  }

  lemma {:induction false} HalfPrefix(p: Packet, usb: int, stride: int, k: nat, n: nat)
    requires k <= n
    ensures Half(p, usb, stride, k) <= Half(p, usb, stride, n)
  {
    if k < n {
      HalfPrefix(p, usb, stride, k, n - 1);
    }
  }

  lemma PartPrefix(p: Packet, usb: int, stride: int, k: nat)
    requires 0 < stride && k <= PerHalf(stride)
    ensures Part(p, usb, stride, k) <= Whole(p, stride)
  {
    HalfPrefix(p, if usb == 0 then 0 else 1, stride, k, PerHalf(stride));
  }

  lemma FrameInPayload(c: Cursor, stride: int, k: nat)
    requires Fits(stride) && At(c, stride, k)
    ensures Base(c.usb) <= c.i && c.i + stride <= Base(c.usb) + PAYLOAD
  {
    HalfFits(stride, k);
    assert (k + 1) * stride == k * stride + stride;
  }

  lemma OnePacket(p: Packet, stride: int)
    requires 0 < stride
    ensures Frames([p], stride) == Whole(p, stride)
  {
    assert [p][..0] == [];
  }

  lemma KeptIsPrefix(s: Session, stride: int, k: nat)
    requires Fits(stride) && InOrder(s, stride, k)
    ensures Kept(s.taken) <= Frames(s.all, stride) && s.finished <= s.all
  {
    var rest := Held(s.c) + s.c.rdy;
    assert s.finished + rest == s.all;
    FramesConcat(s.finished, rest, stride);
    if s.c.udp.Some? {
      var p := s.c.udp.value;
      FramesConcat([p], s.c.rdy, stride);
      OnePacket(p, stride);
      PartPrefix(p, s.c.usb, stride, k);
    }
  }

  /**
   Over every run, received or sent, however packets arrive: what has been taken is the frames of the packets in
   the order they arrived, none left out and none twice, and the packets put away are the first of those, every
   frame of each of them taken.
   */
  lemma FramesInOrder(stride: int, arrivals: seq<Arrival>, receiving: bool)
    requires Fits(stride)
    ensures var s := Run(stride, arrivals, receiving);
      && Kept(s.taken) <= Frames(s.all, stride)
      && s.finished <= s.all && Frames(s.finished, stride) <= Kept(s.taken)
  {
    var k := RunKeeps(stride, arrivals, receiving);
    KeptIsPrefix(Run(stride, arrivals, receiving), stride, k);
  }

  /**
   The next frame of any run lies within the samples of one half of its packet.  There is none only when every
   frame of every packet that has arrived has been taken.
   */
  lemma NextFrame(stride: int, arrivals: seq<Arrival>, receiving: bool, before: seq<Packet>)
    requires Fits(stride)
    ensures var s := Begun(Run(stride, arrivals, receiving), before);
      match Taken(s.c)
      case Frame(_, at) => (16 <= at && at + stride <= 520) || (528 <= at && at + stride <= 1032)
      case Nothing => Kept(s.taken) == Frames(s.all, stride)
  {
    var k := RunKeeps(stride, arrivals, receiving);
    k := StartKeeps(Run(stride, arrivals, receiving), stride, k, before);
    var s := Begun(Run(stride, arrivals, receiving), before);
    if s.c.udp.Some? {
      FrameInPayload(s.c, stride, k);
    }
  }

  /** The strides in use: 8 for sending, 6n+2 for n receivers. */
  lemma StridesFit(receivers: nat)
    requires 1 <= receivers <= 83
    ensures Fits(8) && Fits(6 * receivers + 2)
    ensures PerHalf(8) == 63
  {
  }
}
