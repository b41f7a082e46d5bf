/**
 sdrtcl/hl_udp_jack.c: whole runs of the sender over a pool of packets that go round.  A packet that has been put
 away comes back, with anything in it, and the packets told apart by their arrival are here found in the pool.
 */
module SenderRuns {
  import opened RingArithmetic
  import opened PacketRing
  import opened PacketPump
  import opened TxPacket
  import opened SentPackets

  /** The packets that the pump has, in order: the one in hand, and those that are ready. */
  function InFlight(c: Cursor): seq<Packet> {
    Held(c) + c.rdy
  }

  ghost predicate NoneTwice(q: seq<Packet>) {
    forall j, k :: 0 <= j < k < |q| ==> q[j] != q[k]
  }

  /** Packets that the pump does not have are filled with anything and made ready; those it has are left alone. */
  ghost predicate Readied(a: Bench, ps: seq<Parcel>, b: Bench) {
    && b.c == Fed(a.c, Ids(ps)) && |b.pool| == |a.pool|
    && (forall p :: p in InFlight(a.c) && p < |a.pool| ==> b.pool[p] == a.pool[p])
    && (forall k :: 0 <= k < |ps| ==> FromPool(a, ps[k], b))
    && NoneTwice(Ids(ps))
  }

  ghost predicate FromPool(a: Bench, parcel: Parcel, b: Bench)
    requires |a.pool| == |b.pool|
  {
    parcel.p !in InFlight(a.c) && parcel.p < |b.pool| && b.pool[parcel.p] == parcel.was && |parcel.was| == BYTES
  }

  /** The sender before and after each sample, and in between, once the packets that are new to it are ready. */
  ghost predicate IsRun(inputs: seq<Input>, benches: seq<Bench>, readied: seq<Bench>) {
    && |benches| == |inputs| + 1 && |readied| == |inputs| && benches[0].c == AT_START
    && forall k :: 0 <= k < |inputs| ==> SampleAt(inputs, benches, readied, k)
  }

  ghost predicate SampleAt(inputs: seq<Input>, benches: seq<Bench>, readied: seq<Bench>, k: nat) {
    && k < |inputs| && k < |readied| && k + 1 < |benches| && inputs[k].meanwhile == []
    && Readied(benches[k], inputs[k].before, readied[k])
    && Sampled(readied[k], inputs[k].sample, benches[k + 1])
  }

  // ---- the pool holds what the packets hold ----

  /** From the n-th on, the packets that arrived are those of q, and hold what the pool does. */
  ghost predicate Same(now: seq<seq<Byte>>, n: nat, pool: seq<seq<Byte>>, q: seq<Packet>) {
    && n + |q| == |now| && NoneTwice(q)
    && forall m :: 0 <= m < |q| ==> q[m] < |pool| && now[n + m] == pool[q[m]]
  }

  ghost predicate Tracks(f: Sending, a: Bench) {
    f.s.c == a.c && Same(f.now, |f.s.finished|, a.pool, InFlight(a.c))
  }

  lemma ReadyKeeps(now: seq<seq<Byte>>, n: nat, a: Bench, ps: seq<Parcel>, b: Bench)
    requires Same(now, n, a.pool, InFlight(a.c)) && Readied(a, ps, b)
    ensures Same(now + Contents(ps), n, b.pool, InFlight(b.c))
  {
    var q := InFlight(a.c);
    assert InFlight(b.c) == q + Ids(ps);
    forall m | 0 <= m < |q| + |ps|
      ensures (q + Ids(ps))[m] < |b.pool| && (now + Contents(ps))[n + m] == b.pool[(q + Ids(ps))[m]]
    {
      if m < |q| {
        assert q[m] in q;
      } else {
        assert FromPool(a, ps[m - |q|], b);
      }
    }
    forall j, k | 0 <= j < k < |q| + |ps| ensures (q + Ids(ps))[j] != (q + Ids(ps))[k] {
      if j < |q| <= k {
        assert FromPool(a, ps[k - |q|], b);
      } else if |q| <= j {
        assert Ids(ps)[j - |q|] != Ids(ps)[k - |q|];
      }
    }
  }

  lemma SampleKeeps(now: seq<seq<Byte>>, n: nat, pool: seq<seq<Byte>>, q: seq<Packet>, c: Cursor, s: Sample,
                    pool': seq<seq<Byte>>)
    requires Same(now, n, pool, q) && c.udp.Some? && q != [] && q[0] == c.udp.value && |pool| == |pool'|
    requires forall p :: 0 <= p < |pool| ==> pool'[p] == WithSample(pool[p], c, p, s)
    ensures Same(now[n := WithSample(now[n], c, c.udp.value, s)], n, pool', q)
  {
    forall m | 0 <= m < |q| ensures now[n := WithSample(now[n], c, q[0], s)][n + m] == pool'[q[m]] {
      assert m > 0 ==> q[m] != q[0];
    }
  }

  lemma NoneKeeps(now: seq<seq<Byte>>, n: nat, pool: seq<seq<Byte>>, c: Cursor, s: Sample, pool': seq<seq<Byte>>)
    requires Same(now, n, pool, InFlight(c)) && c.udp.None? && |pool| == |pool'|
    requires forall p :: 0 <= p < |pool| ==> pool'[p] == WithSample(pool[p], c, p, s)
    ensures Same(now, n, pool', InFlight(c))
  {
  }

  lemma PutAwayKeeps(now: seq<seq<Byte>>, n: nat, pool: seq<seq<Byte>>, q: seq<Packet>)
    requires Same(now, n, pool, q) && q != []
    ensures Same(now, n + 1, pool, q[1..])
  {
    forall m | 0 <= m < |q[1..]| ensures q[1..][m] < |pool| && now[n + 1 + m] == pool[q[1..][m]] {
      assert q[1..][m] == q[m + 1];
    }
  }

  /** Taking a packet in hand does not change which packets the pump has. */
  lemma StartFlight(c: Cursor)
    requires c.udp.None? ==> c.usb == 1
    ensures InFlight(Start(c).c) == InFlight(c) && Start(c).finished == []
    ensures Start(c).c.udp.None? ==> InFlight(c) == []
  {
  }

  /** Moving on gives up the packet in hand or none. */
  lemma FinishFlight(c: Cursor)
    requires c.udp.Some?
    ensures var t := Finish(c, STRIDE);
      if t.finished == [] then InFlight(t.c) == InFlight(c)
      else t.finished == [c.udp.value] && InFlight(t.c) == InFlight(c)[1..]
  {
    var q := InFlight(c);
    assert q[1..] == c.rdy;
    assert c.rdy != [] ==> [c.rdy[0]] + c.rdy[1..] == c.rdy;
    assert [] + c.rdy == c.rdy;
  }

  /** The account of bytes at a sample, before the pump moves on. */
  lemma WriteKeeps(f: Sending, b: Bench, s: Session, sample: Sample, e: Bench)
    requires Same(f.now, |s.finished|, b.pool, InFlight(s.c)) && s.c == Start(b.c).c && Sampled(b, sample, e)
    ensures Same(Written(f, s.c, |s.finished|, sample).now, |s.finished|, e.pool, InFlight(s.c))
  {
    if s.c.udp.Some? {
      SampleKeeps(f.now, |s.finished|, b.pool, InFlight(s.c), s.c, sample, e.pool);
    } else {
      NoneKeeps(f.now, |s.finished|, b.pool, s.c, sample, e.pool);
    }
  }

  /** With nothing arriving meanwhile, a frame is a start, a sample and a move on. */
  lemma FrameOfSession(s: Session, before: seq<Packet>, s1: Session, s2: Session)
    requires s1 == Begun(s, before) && s2 == OneFrame(s, STRIDE, Arrival(before, []), false)
    ensures s2.c == AfterSample(s1.c).c && s2.finished == s1.finished + AfterSample(s1.c).finished
  {
    assert Fed(s1.c, []) == s1.c;
    assert s1.finished + [] == s1.finished;
  }

  lemma SendIs(f: Sending, i: Input, s1: Session, f1: Sending)
    requires i.meanwhile == [] && s1 == Begun(f.s, Ids(i.before))
    requires f1 == Written(Joined(f, i.before), s1.c, |s1.finished|, i.sample)
    ensures Send(f, i).now == f1.now && Send(f, i).s == OneFrame(f.s, STRIDE, Arrival(Ids(i.before), []), false)
  {
    assert Ids(i.meanwhile) == [];
    assert f1.now + Contents([]) == f1.now;
  }

  /** What the packet that is put away at a sample holds in the pool is what it holds in the account. */
  ghost predicate PutAwayHolds(f: Sending, n: nat, e: Bench, gone: seq<Packet>) {
    |gone| <= 1 && forall p :: p in gone ==> n < |f.now| && p < |e.pool| && e.pool[p] == f.now[n]
  }

  lemma SendTracks(f: Sending, a: Bench, i: Input, b: Bench, e: Bench, k: nat)
    requires Tracks(f, a) && Kempt(f) && InOrder(f.s, STRIDE, k)
    requires i.meanwhile == [] && Readied(a, i.before, b) && Sampled(b, i.sample, e)
    ensures Tracks(Send(f, i), e)
    ensures Send(f, i).s.finished == f.s.finished + AfterSample(Start(b.c).c).finished
    ensures PutAwayHolds(Send(f, i), |f.s.finished|, e, AfterSample(Start(b.c).c).finished)
  {
    var n, s1 := |f.s.finished|, Begun(f.s, Ids(i.before));
    ReadyKeeps(f.now, n, a, i.before, b);
    StartFlight(b.c);
    assert s1.c == Start(b.c).c && s1.finished == f.s.finished;
    var f1 := Written(Joined(f, i.before), s1.c, n, i.sample);
    WriteKeeps(Joined(f, i.before), b, s1, i.sample, e);
    SendIs(f, i, s1, f1);
    FrameOfSession(f.s, Ids(i.before), s1, Send(f, i).s);
    MovesOn(f1.now, n, e.pool, s1.c);
  }

  lemma MovesOn(now: seq<seq<Byte>>, n: nat, pool: seq<seq<Byte>>, c: Cursor)
    requires Same(now, n, pool, InFlight(c))
    ensures var t := AfterSample(c);
      && Same(now, n + |t.finished|, pool, InFlight(t.c))
      && |t.finished| <= 1 && forall p :: p in t.finished ==> n < |now| && p < |pool| && pool[p] == now[n]
  {
    if c.udp.Some? {
      FinishFlight(c);
      PutAwayKeeps(now, n, pool, InFlight(c));
    }
  }

  lemma {:induction false} SendOnce(inputs: seq<Input>, k: nat)
    requires k < |inputs|
    ensures SendAll(inputs[..k + 1]) == Send(SendAll(inputs[..k]), inputs[k])
  {
    assert inputs[..k + 1][..k] == inputs[..k] && inputs[..k + 1][k] == inputs[k];
  }

  lemma SizedOnce(inputs: seq<Input>, benches: seq<Bench>, readied: seq<Bench>, k: nat)
    requires SampleAt(inputs, benches, readied, k) && AllSized(inputs[..k])
    ensures AllSized(inputs[..k + 1]) && Sized(inputs[k].before) && Sized(inputs[k].meanwhile)
  {
    forall m | 0 <= m < |inputs[k].before| ensures |inputs[k].before[m].was| == BYTES {
      assert FromPool(benches[k], inputs[k].before[m], readied[k]);
    }
    var more := inputs[..k + 1];
    forall m | 0 <= m < |more| ensures Sized(more[m].before) && Sized(more[m].meanwhile) {
      assert m < k ==> more[m] == inputs[..k][m];
    }
  }

  /** Every run of the sender is a run of the account, packet for packet and byte for byte. */
  lemma {:induction false} RunTracks(inputs: seq<Input>, benches: seq<Bench>, readied: seq<Bench>, n: nat, f: Sending)
    requires IsRun(inputs, benches, readied) && n <= |inputs| && f == SendAll(inputs[..n])
    ensures AllSized(inputs[..n]) && Tracks(f, benches[n])
  {
    if n > 0 {
      var k, f0 := n - 1, SendAll(inputs[..n - 1]);
      RunTracks(inputs, benches, readied, k, f0);
      assert SampleAt(inputs, benches, readied, k);
      SizedOnce(inputs, benches, readied, k);
      SendOnce(inputs, k);
      var r := SendAllKeeps(inputs[..k]);
      SendTracks(f0, benches[k], inputs[k], readied[k], benches[n], r);
    } else {
      assert inputs[..0] == [];
    }
  }

  /** With one more sample put, a packet is put away only when its last sample is. */
  lemma PutAwayWhenFull(f: Sending, i: Input, r: nat)
    requires Kempt(f) && InOrder(f.s, STRIDE, r) && Sized(i.before) && Sized(i.meanwhile)
    requires |Send(f, i).s.finished| > |f.s.finished|
    ensures |Send(f, i).put| == 126 * |f.s.finished| + 126
  {
    OnePut(f, i, r);
    RoomForAll(f.s, r);
    SamplesAsked(f.s, r);
    var k := SendKeeps(f, i, r);
    SamplesAsked(Send(f, i).s, k);
  }

  lemma PutAwayIsMade(f: Sending, i: Input, f': Sending, r: nat, e: Bench, gone: seq<Packet>, p: Packet, n: nat,
                      sequence: nat, first: seq<Byte>, second: seq<Byte>)
    requires Kempt(f) && InOrder(f.s, STRIDE, r) && Sized(i.before) && Sized(i.meanwhile) && f' == Send(f, i)
    requires n == |f.s.finished| && f'.s.finished == f.s.finished + gone && p in gone && PutAwayHolds(f', n, e, gone)
    requires |first| == |second| == 8
    ensures p < |e.pool| && |e.pool[p]| == BYTES && |f'.put| == 126 * n + 126
    ensures Stamped(e.pool[p], sequence, first, second) == Finished(SamplesOf(f'.put, n), sequence, first, second)
  {
    PutAwayWhenFull(f, i, r);
    var k := SendKeeps(f, i, r);
    PutAwayIsFull(f', k, n);
    NothingLeftOver(f'.was[n], SamplesOf(f'.put, n), sequence, first, second);
  }

  /**
   Over every run of the sender: a packet that is put away at a sample, stamped as it then lies in the pool, is
   the last 126 samples that were put and its headers, whatever it and the others held before.
   */
  lemma PoolNeverLeaks(inputs: seq<Input>, benches: seq<Bench>, readied: seq<Bench>, k: nat, p: Packet,
                       put: seq<Sample>, n: nat, sequence: nat, first: seq<Byte>, second: seq<Byte>)
    requires IsRun(inputs, benches, readied) && k < |inputs| && |first| == |second| == 8
    requires p in AfterSample(Start(readied[k].c).c).finished
    requires put == SendAll(inputs[..k + 1]).put && n == |SendAll(inputs[..k]).s.finished|
    ensures p < |benches[k + 1].pool| && |benches[k + 1].pool[p]| == BYTES && |put| == 126 * n + 126
    ensures Stamped(benches[k + 1].pool[p], sequence, first, second) ==
      Finished(SamplesOf(put, n), sequence, first, second)
  {
    var f, gone := SendAll(inputs[..k]), AfterSample(Start(readied[k].c).c).finished;
    RunTracks(inputs, benches, readied, k, f);
    assert SampleAt(inputs, benches, readied, k);
    SizedOnce(inputs, benches, readied, k);
    SendOnce(inputs, k);
    var r := SendAllKeeps(inputs[..k]);
    SendTracks(f, benches[k], inputs[k], readied[k], benches[k + 1], r);
    PutAwayIsMade(f, inputs[k], Send(f, inputs[k]), r, benches[k + 1], gone, p, n, sequence, first, second);
  }

  /** And read back, sample n of it is the n-th of those 126. */
  lemma PoolReadsBack(inputs: seq<Input>, benches: seq<Bench>, readied: seq<Bench>, k: nat, p: Packet,
                      put: seq<Sample>, n: nat, sequence: nat, first: seq<Byte>, second: seq<Byte>)
    requires IsRun(inputs, benches, readied) && AllValid(inputs) && k < |inputs| && |first| == |second| == 8 && n < 126
    requires p in AfterSample(Start(readied[k].c).c).finished && put == SendAll(inputs[..k + 1]).put
    ensures p < |benches[k + 1].pool| && |benches[k + 1].pool[p]| == BYTES && 126 <= |put|
    ensures ReadsAs(Stamped(benches[k + 1].pool[p], sequence, first, second), Place(n), put[|put| - 126 + n])
  {
    var i := |SendAll(inputs[..k]).s.finished|;
    PoolNeverLeaks(inputs, benches, readied, k, p, put, i, sequence, first, second);
    FirstAreValid(inputs, k + 1, put);
    LastReadsBack(Stamped(benches[k + 1].pool[p], sequence, first, second), put, i, sequence, first, second, n);
  }

  lemma FirstAreValid(inputs: seq<Input>, k: nat, put: seq<Sample>)
    requires AllValid(inputs) && k <= |inputs| && put == SendAll(inputs[..k]).put
    ensures forall n :: 0 <= n < |put| ==> ValidSample(put[n])
  {
    PutAreValid(inputs[..k]);
  }

  lemma LastReadsBack(b: seq<Byte>, put: seq<Sample>, i: nat, sequence: nat, first: seq<Byte>, second: seq<Byte>,
                      n: nat)
    requires |put| == 126 * i + 126 && |first| == |second| == 8 && n < 126
    requires b == Finished(SamplesOf(put, i), sequence, first, second)
    requires forall m :: 0 <= m < |put| ==> ValidSample(put[m])
    ensures ReadsAs(b, Place(n), put[|put| - 126 + n])
  {
    ShareReadsBack(b, put, i, sequence, first, second, n);
  }
}
