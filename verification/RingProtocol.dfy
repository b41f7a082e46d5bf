/**
 dspmath/ring_buffer.h under concurrency: one writer and one reader, each taking one memory step at a time in
 any interleaving.  Memory is sequentially consistent.
 */
module RingProtocol {
  import opened RingArithmetic

  /** Where the writer is inside ring_buffer_put, or ring_buffer_put_from_ring with the bytes of a private ring. */
  datatype Writer = WriterIdle | PutCalled(bytes: seq<Byte>) | Putting(bytes: seq<Byte>, i: nat)

  /** Where the reader is inside ring_buffer_get. */
  datatype Reader = ReaderIdle | GetCalled(n: nat) | Getting(n: nat, got: seq<Byte>)

  /** The shared ring, the two threads, and what each has so far put in and got out by finished calls. */
  datatype State = State(buff: seq<Byte>, wptr: nat, rptr: nat, writer: Writer, reader: Reader,
                         sent: seq<Byte>, received: seq<Byte>)

  datatype Step =
    | CallPut(data: seq<Byte>) | CheckRoom | CopyIn | Publish
    | CallGet(count: nat) | CheckData | CopyOut | Release

  function Start(size: nat): State {
    State(seq(size, _ => 0), 0, 0, WriterIdle, ReaderIdle, [], [])
  }

  function Available(s: State): nat {
    (s.wptr - s.rptr) % WRAP
  }

  /** One step of one thread; a step that thread is not at changes nothing. */
  function Next(s: State, step: Step): State
    requires 0 < |s.buff|
  {
    var size := |s.buff|;
    match step
    case CallPut(data) => if s.writer.WriterIdle? then s.(writer := PutCalled(data)) else s
    case CheckRoom =>
      if !s.writer.PutCalled? then s
      else if size - Available(s) < |s.writer.bytes| then s.(writer := WriterIdle)
      else s.(writer := Putting(s.writer.bytes, 0))
    case CopyIn =>
      if !s.writer.Putting? || s.writer.i >= |s.writer.bytes| then s
      else s.(buff := s.buff[(s.wptr + s.writer.i) % WRAP % size := s.writer.bytes[s.writer.i]],
              writer := Putting(s.writer.bytes, s.writer.i + 1))
    case Publish =>
      if !s.writer.Putting? || s.writer.i < |s.writer.bytes| then s
      else s.(wptr := (s.wptr + |s.writer.bytes|) % WRAP, writer := WriterIdle, sent := s.sent + s.writer.bytes)
    case CallGet(count) => if s.reader.ReaderIdle? then s.(reader := GetCalled(count)) else s
    case CheckData =>
      if !s.reader.GetCalled? then s
      else if Available(s) < s.reader.n then s.(reader := ReaderIdle)
      else s.(reader := Getting(s.reader.n, []))
    case CopyOut =>
      if !s.reader.Getting? || |s.reader.got| >= s.reader.n then s
      else s.(reader := Getting(s.reader.n, s.reader.got + [s.buff[(s.rptr + |s.reader.got|) % WRAP % size]]))
    case Release =>
      if !s.reader.Getting? || |s.reader.got| < s.reader.n then s
      else s.(rptr := (s.rptr + s.reader.n) % WRAP, reader := ReaderIdle, received := s.received + s.reader.got)
  }

  function Run(s: State, steps: seq<Step>): (r: State)
    requires 0 < |s.buff|
    ensures |r.buff| == |s.buff|
  {
    if steps == [] then s else Next(Run(s, steps[..|steps| - 1]), steps[|steps| - 1])
  }

  /** All bytes sent, and those the writer has copied in but not yet published. */
  function Stored(s: State): seq<Byte> {
    s.sent + if s.writer.Putting? && s.writer.i <= |s.writer.bytes| then s.writer.bytes[..s.writer.i] else []
  }

  /** From the first byte not yet released on, every byte stored is in its slot. */
  ghost predicate Holds(buff: seq<Byte>, from: nat, all: seq<Byte>) {
    0 < |buff| && forall p {:trigger all[p]} :: from <= p < |all| ==> buff[Slot(p, |buff|)] == all[p]
  }

  ghost predicate WriterSafe(s: State) {
    s.writer.Putting? ==>
      s.writer.i <= |s.writer.bytes| && |s.sent| + |s.writer.bytes| <= |s.received| + |s.buff|
  }

  ghost predicate ReaderSafe(s: State) {
    s.reader.Getting? ==>
      && |s.reader.got| <= s.reader.n && |s.received| + s.reader.n <= |s.sent|
      && s.received + s.reader.got <= s.sent
  }

  ghost predicate Safe(s: State) {
    && RingSize(|s.buff|)
    && s.wptr == |s.sent| % WRAP && s.rptr == |s.received| % WRAP
    && |s.sent| <= |s.received| + |s.buff| && s.received <= s.sent
    && Holds(s.buff, |s.received|, Stored(s))
    && WriterSafe(s) && ReaderSafe(s)
  }

  lemma AvailableIs(s: State)
    requires Safe(s)
    ensures Available(s) == |s.sent| - |s.received|
  {
    WrapDifference(|s.sent|, |s.received|);
  }

  lemma SlotOfPointer(position: nat, n: nat, size: nat)
    requires RingSize(size)
    ensures (position % WRAP + n) % WRAP % size == Slot(position + n, size)
  {
    WrapSum(position, n);
    WrapKeepsSlot(position + n, size);
  }

  /** The slot a writer is about to fill holds no byte the reader may still want. */
  lemma NoUnreadByteOverwritten(s: State, p: nat)
    requires Safe(s) && s.writer.Putting? && s.writer.i < |s.writer.bytes|
    requires |s.received| <= p < |s.sent|
    ensures (s.wptr + s.writer.i) % WRAP % |s.buff| != Slot(p, |s.buff|)
  {
    SlotOfPointer(|s.sent|, s.writer.i, |s.buff|);
    SlotsDiffer(p, |s.sent| + s.writer.i, |s.buff|);
  }

  lemma HoldsMore(buff: seq<Byte>, from: nat, all: seq<Byte>, b: Byte)
    requires Holds(buff, from, all) && from <= |all| < from + |buff|
    ensures Holds(buff[Slot(|all|, |buff|) := b], from, all + [b])
  {
    var size := |buff|;
    var buff' := buff[Slot(|all|, size) := b];
    forall p | from <= p < |all| + 1 ensures buff'[Slot(p, size)] == (all + [b])[p] {
      if p < |all| {
        SlotsDiffer(p, |all|, size);
        assert buff[Slot(p, size)] == all[p];
      }
    }
  }

  lemma CopyInSafe(s: State)
    requires Safe(s) && s.writer.Putting? && s.writer.i < |s.writer.bytes|
    ensures Safe(Next(s, CopyIn))
  {
    SlotOfPointer(|s.sent|, s.writer.i, |s.buff|);
    HoldsMore(s.buff, |s.received|, Stored(s), s.writer.bytes[s.writer.i]);
    assert Stored(Next(s, CopyIn)) == Stored(s) + [s.writer.bytes[s.writer.i]];
  }

  lemma PublishSafe(s: State)
    requires Safe(s) && s.writer.Putting? && s.writer.i == |s.writer.bytes|
    ensures Safe(Next(s, Publish))
  {
    WrapSum(|s.sent|, |s.writer.bytes|);
    assert s.writer.bytes[..s.writer.i] == s.writer.bytes;
    assert Stored(Next(s, Publish)) == Stored(s);
    assert s.sent <= s.sent + s.writer.bytes;
  }

  lemma CopyOutSafe(s: State)
    requires Safe(s) && s.reader.Getting? && |s.reader.got| < s.reader.n
    ensures Safe(Next(s, CopyOut))
  {
    var p := |s.received| + |s.reader.got|;
    SlotOfPointer(|s.received|, |s.reader.got|, |s.buff|);
    assert Stored(s)[p] == s.sent[p];
    assert s.received + (s.reader.got + [s.sent[p]]) == (s.received + s.reader.got) + [s.sent[p]];
    assert Stored(Next(s, CopyOut)) == Stored(s);
  }

  lemma ReleaseSafe(s: State)
    requires Safe(s) && s.reader.Getting? && |s.reader.got| == s.reader.n
    ensures Safe(Next(s, Release))
  {
    WrapSum(|s.received|, s.reader.n);
    assert Stored(Next(s, Release)) == Stored(s);
  }

  lemma CheckSafe(s: State, step: Step)
    requires Safe(s) && (step.CallPut? || step.CheckRoom? || step.CallGet? || step.CheckData?)
    ensures Safe(Next(s, step))
  {
    AvailableIs(s);
    assert Stored(Next(s, step)) == Stored(s);
  }

  lemma NextSafe(s: State, step: Step)
    requires Safe(s)
    ensures Safe(Next(s, step))
  {
    match step
    case CallPut(_) => CheckSafe(s, step);
    case CheckRoom => CheckSafe(s, step);
    case CallGet(_) => CheckSafe(s, step);
    case CheckData => CheckSafe(s, step);
    case CopyIn => if Next(s, step) != s { CopyInSafe(s); }
    case Publish => if Next(s, step) != s { PublishSafe(s); }
    case CopyOut => if Next(s, step) != s { CopyOutSafe(s); }
    case Release => if Next(s, step) != s { ReleaseSafe(s); }
  }

  lemma {:induction false} RunSafe(size: nat, steps: seq<Step>)
    requires PowerOfTwo(size) && size < WRAP
    ensures Safe(Run(Start(size), steps))
  {
    PowersOfTwoAreRingSizes(size);
    if steps != [] {
      RunSafe(size, steps[..|steps| - 1]);
      NextSafe(Run(Start(size), steps[..|steps| - 1]), steps[|steps| - 1]);
    }
  }

  /**
   Under every interleaving, however often the pointers wrap: what has been received is a prefix of what has
   been sent, no more than a ring behind it, and so are the bytes of a get still in progress.
   */
  lemma ReceivedIsPrefixOfSent(size: nat, steps: seq<Step>)
    requires PowerOfTwo(size) && size < WRAP
    ensures var s := Run(Start(size), steps);
      && s.received <= s.sent && |s.sent| <= |s.received| + size
      && (s.reader.Getting? ==> s.received + s.reader.got <= s.sent)
  {
    RunSafe(size, steps);
  }

  /** A get asked for no more than has been sent and not received goes through; otherwise it fails. */
  lemma GetSucceedsIffEnough(size: nat, steps: seq<Step>)
    requires PowerOfTwo(size) && size < WRAP
    ensures var s := Run(Start(size), steps);
      s.reader.GetCalled? ==>
        (Next(s, CheckData).reader.Getting? <==> s.reader.n <= |s.sent| - |s.received|)
    ensures var s := Run(Start(size), steps);
      s.writer.PutCalled? ==>
        (Next(s, CheckRoom).writer.Putting? <==> |s.sent| + |s.writer.bytes| <= |s.received| + size)
  {
    RunSafe(size, steps);
    AvailableIs(Run(Start(size), steps));
  }
}
