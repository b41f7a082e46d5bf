/** The records of dspmath/midi_buffer.h: a duration, a size and that many bytes of MIDI. */
module MidiRecords {
  import opened RingArithmetic

  datatype Record = Record(duration: nat, payload: seq<Byte>)

  const NOTE_ON := 0x90

  function NoteOn(duration: nat, chan: int, note: int, velocity: int): Record {
    Record(duration, [NOTE_ON + (chan - 1), note, velocity])
  }

  // sizeof(midi_buffer_event_t): four bytes of duration, two of size, two of padding
  const HEADER := 8

  predicate Fits(r: Record) {
    r.duration < WRAP && |r.payload| < 0x1_0000
  }

  predicate AllFit(rs: seq<Record>) {
    forall k :: 0 <= k < |rs| ==> Fits(rs[k])
  }

  function Little(n: nat, bytes: nat): (s: seq<Byte>)
    ensures |s| == bytes
  {
    if bytes == 0 then [] else [n % 256] + Little(n / 256, bytes - 1)
  }

  function Value(s: seq<Byte>): int {
    if s == [] then 0 else s[0] + 256 * Value(s[1..])
  }

  function Power256(n: nat): nat {
    if n == 0 then 1 else 256 * Power256(n - 1)
  }

  lemma {:induction false} LittleRoundTrip(n: nat, bytes: nat)
    requires n < Power256(bytes)
    ensures Value(Little(n, bytes)) == n
  {
    if bytes > 0 {
      LittleRoundTrip(n / 256, bytes - 1);
      assert Little(n, bytes)[1..] == Little(n / 256, bytes - 1);
    }
  }

  function Header(duration: nat, size: nat): (s: seq<Byte>)
    ensures |s| == HEADER
  {
    Little(duration, 4) + Little(size, 2) + [0, 0]
  }

  function HeaderDuration(s: seq<Byte>): int
    requires |s| == HEADER
  {
    Value(s[..4])
  }

  function HeaderSize(s: seq<Byte>): int
    requires |s| == HEADER
  {
    Value(s[4..6])
  }

  lemma HeaderRoundTrip(duration: nat, size: nat)
    requires duration < WRAP && size < 0x1_0000
    ensures HeaderDuration(Header(duration, size)) == duration
    ensures HeaderSize(Header(duration, size)) == size
  {
    var h := Header(duration, size);
    assert h[..4] == Little(duration, 4) && h[4..6] == Little(size, 2);
    assert Power256(2) == 0x1_0000 && Power256(4) == WRAP;
    LittleRoundTrip(duration, 4);
    LittleRoundTrip(size, 2);
  }

  function Encode(r: Record): seq<Byte> {
    Header(r.duration, |r.payload|) + r.payload
  }

  function EncodeAll(rs: seq<Record>): seq<Byte> {
    if rs == [] then [] else Encode(rs[0]) + EncodeAll(rs[1..])
  }

  lemma {:induction false} EncodeConcat(a: seq<Record>, b: seq<Record>)
    ensures EncodeAll(a + b) == EncodeAll(a) + EncodeAll(b)
  {
    if a == [] {
      assert a + b == b;
    } else {
      assert (a + b)[1..] == a[1..] + b;
      EncodeConcat(a[1..], b);
    }
  }

  lemma EncodeOne(r: Record)
    ensures EncodeAll([r]) == Encode(r)
  {
    assert [r][1..] == [];
  }

  function PayloadBytes(rs: seq<Record>): nat {
    if rs == [] then 0 else |rs[0].payload| + PayloadBytes(rs[1..])
  }

  lemma {:induction false} EncodedLength(rs: seq<Record>)
    ensures |EncodeAll(rs)| == HEADER * |rs| + PayloadBytes(rs)
  {
    if rs != [] {
      EncodedLength(rs[1..]);
    }
  }

  /** The stream can be read back: a decoder that reads headers and payloads finds the records. */
  function Decode(s: seq<Byte>, count: nat): seq<Record>
  {
    if count == 0 || |s| < HEADER then [] else
      var size := HeaderSize(s[..HEADER]);
      if size < 0 || HeaderDuration(s[..HEADER]) < 0 || HEADER + size > |s| then []
      else [Record(HeaderDuration(s[..HEADER]), s[HEADER..HEADER + size])] + Decode(s[HEADER + size..], count - 1)
  }

  lemma SplitAt(h: seq<Byte>, p: seq<Byte>, rest: seq<Byte>)
    ensures var s := h + p + rest;
      s[..|h|] == h && s[|h|..|h| + |p|] == p && s[|h| + |p|..] == rest && s[|h|..] == p + rest
  {
  }

  lemma FirstRecord(rs: seq<Record>)
    requires rs != [] && Fits(rs[0])
    ensures var s, size := EncodeAll(rs), |rs[0].payload|;
      && HEADER + size <= |s| && HeaderSize(s[..HEADER]) == size && HeaderDuration(s[..HEADER]) == rs[0].duration
      && s[HEADER..HEADER + size] == rs[0].payload && s[HEADER + size..] == EncodeAll(rs[1..])
      && s[HEADER..] == rs[0].payload + EncodeAll(rs[1..])
  {
    HeaderRoundTrip(rs[0].duration, |rs[0].payload|);
    SplitAt(Header(rs[0].duration, |rs[0].payload|), rs[0].payload, EncodeAll(rs[1..]));
  }

  lemma {:induction false} StreamRoundTrip(rs: seq<Record>)
    requires AllFit(rs)
    ensures Decode(EncodeAll(rs), |rs|) == rs
  {
    if rs != [] {
      FirstRecord(rs);
      StreamRoundTrip(rs[1..]);
    }
  }

  // ---- which records a process callback takes, and when they fire ----

  const MAX_EVENTS := 64

  function Later(a: nat, b: nat): nat {
    if a < b then b else a
  }

  /** When record k is due: at the head for the first, then the duration of each after it has fired. */
  function DueAt(rs: seq<Record>, times: seq<nat>, head: nat, k: nat): nat
    requires k <= |times| <= |rs|
  {
    if k == 0 then head else times[k - 1] + rs[k - 1].duration
  }

  /** Record k is due before `end`, and fires when it is due or at `start` if that is later. */
  ghost predicate Fires(rs: seq<Record>, times: seq<nat>, head: nat, start: nat, end: nat, k: nat) {
    && k < |times| <= |rs|
    && DueAt(rs, times, head, k) < end
    && times[k] == Later(DueAt(rs, times, head, k), start)
  }

  /** The first records of rs fire at the given times. */
  ghost predicate Firing(rs: seq<Record>, times: seq<nat>, head: nat, start: nat, end: nat) {
    && |times| <= |rs| && |times| <= MAX_EVENTS
    && forall k :: 0 <= k < |times| ==> Fires(rs, times, head, start, end, k)
  }

  /** They are all that fire in a callback: the queue is empty, the next is not due, or there is no more room. */
  ghost predicate IsBatch(rs: seq<Record>, times: seq<nat>, head: nat, start: nat, end: nat, head': nat) {
    && Firing(rs, times, head, start, end)
    && head' == DueAt(rs, times, head, |times|)
    && (|times| == |rs| || |times| == MAX_EVENTS || end <= head')
  }

  /** The records so far have fired, and `due` is when the next one is due. */
  ghost predicate Going(rs: seq<Record>, times: seq<nat>, head: nat, start: nat, end: nat, due: nat) {
    Firing(rs, times, head, start, end) && due == DueAt(rs, times, head, |times|)
  }

  lemma BatchEnds(rs: seq<Record>, times: seq<nat>, head: nat, start: nat, end: nat, due: nat)
    requires Going(rs, times, head, start, end, due)
    requires |times| == MAX_EVENTS || end <= due || |EncodeAll(rs[|times|..])| < HEADER
    ensures IsBatch(rs, times, head, start, end, due)
  {
    EncodedLength(rs[|times|..]);
  }

  lemma GoesOn(rs: seq<Record>, times: seq<nat>, head: nat, start: nat, end: nat, due: nat, times': seq<nat>, due': nat)
    requires Going(rs, times, head, start, end, due) && |times| < |rs| && |times| < MAX_EVENTS && due < end
    requires times' == times + [Later(due, start)] && due' == Later(due, start) + rs[|times|].duration
    ensures Going(rs, times', head, start, end, due')
  {
    forall k | 0 <= k < |times'| ensures Fires(rs, times', head, start, end, k) {
      assert k < |times| ==> Fires(rs, times, head, start, end, k);
    }
  }
}

/** dspmath/midi_buffer.h: records staged by the command thread, published, and scheduled by the process callback. */
module MidiBuffer {
  import opened RingArithmetic
  import opened MidiRecords
  import opened RingBuffer

  const MIDI_BUFFER_BYTES := 8192

  /** A dequeued event: when in this callback, and where its bytes are in the read buffer. */
  datatype Event = Event(time: nat, size: nat, offset: nat)

  predicate HasRoom(staged: seq<Byte>, r: Record) {
    |staged| + HEADER + |r.payload| <= MIDI_BUFFER_BYTES
  }

  /** What is staged after a command; a header whose payload does not fit is left behind. */
  function WithCommand(staged: seq<Byte>, r: Record): seq<Byte> {
    if HasRoom(staged, r) then staged + Encode(r)
    else if |staged| + HEADER <= MIDI_BUFFER_BYTES then staged + Header(r.duration, |r.payload|)
    else staged
  }

  class Midi {
    const ring: Ring
    const wring: Ring
    const rring: Ring
    var headFrame: nat
    var eventCount: nat
    const events: array<Event>

    ghost predicate Valid()
      reads this, ring, ring.buff, wring, wring.buff, rring, rring.buff
    {
      && ring != wring && wring != rring && ring.buff != wring.buff && wring.buff != rring.buff
      && wring.Valid() && wring.size == MIDI_BUFFER_BYTES
      && ReadValid()
    }

    /** What the process callback works on. */
    ghost predicate ReadValid()
      reads this, ring, ring.buff, rring, rring.buff
    {
      && ring != rring && ring.buff != rring.buff
      && ring.Valid() && rring.Valid() && ring.size == rring.size == MIDI_BUFFER_BYTES
      && events.Length == MAX_EVENTS && eventCount <= MAX_EVENTS
    }

    constructor ()
      ensures Valid() && ring.Contents() == wring.Contents() == [] && headFrame == 0 && eventCount == 0
      ensures fresh(ring) && fresh(wring) && fresh(rring) && fresh(events)
      ensures fresh(ring.buff) && fresh(wring.buff) && fresh(rring.buff)
    {
      assert PowerOfTwo(4096) && PowerOfTwo(2048) && PowerOfTwo(512);
      ring := new Ring(MIDI_BUFFER_BYTES);
      wring := new Ring(MIDI_BUFFER_BYTES);
      rring := new Ring(MIDI_BUFFER_BYTES);
      headFrame, eventCount := 0, 0;
      events := new Event[MAX_EVENTS](_ => Event(0, 0, 0));
    }

    // ---- the write side ----

    /** Stage bytes; -1 if they do not fit. */
    method QueueBytes(bytes: seq<Byte>) returns (r: int)
      requires Valid()
      modifies wring, wring.buff
      ensures Valid()
      ensures |old(wring.Contents())| + |bytes| <= MIDI_BUFFER_BYTES ==>
        r == |bytes| && wring.Contents() == old(wring.Contents()) + bytes
      ensures |old(wring.Contents())| + |bytes| > MIDI_BUFFER_BYTES ==>
        r == -1 && wring.Contents() == old(wring.Contents())
    {
      var room := wring.AvailableToWrite();
      if room < |bytes| { return -1; }
      r := wring.Put(bytes);
    }

    /** Stage one record, or else its header alone, or nothing. */
    method QueueCommand(duration: nat, bytes: seq<Byte>) returns (r: int)
      requires Valid() && Fits(Record(duration, bytes))
      modifies wring, wring.buff
      ensures Valid()
      ensures r == if HasRoom(old(wring.Contents()), Record(duration, bytes)) then HEADER + |bytes| else -1
      ensures wring.Contents() == WithCommand(old(wring.Contents()), Record(duration, bytes))
    {
      var n1 := QueueBytes(Header(duration, |bytes|));
      if n1 < 0 { return n1; }
      var n2 := QueueBytes(bytes);
      if n2 < 0 { return n2; }
      r := n1 + n2;
    }

    /** Stage a note-on message that holds for `duration` frames. */
    method QueueNoteOn(duration: nat, chan: int, note: int, velocity: int) returns (r: int)
      requires Valid() && duration < WRAP
      modifies wring, wring.buff
      ensures Valid()
      ensures r == if HasRoom(old(wring.Contents()), NoteOn(duration, chan, note, velocity)) then 1 else -1
      ensures wring.Contents() == WithCommand(old(wring.Contents()), NoteOn(duration, chan, note, velocity))
    {
      var n := QueueCommand(duration, [NOTE_ON + (chan - 1), note, velocity]);
      r := if n > 0 then 1 else -1;
    }

    /** Stage a pause: a record with nothing to send. */
    method QueueDelay(duration: nat) returns (r: int)
      requires Valid() && duration < WRAP
      modifies wring, wring.buff
      ensures Valid()
      ensures r == if HasRoom(old(wring.Contents()), Record(duration, [])) then 1 else -1
      ensures wring.Contents() == WithCommand(old(wring.Contents()), Record(duration, []))
    {
      assert Encode(Record(duration, [])) == Header(duration, 0);
      var n := QueueBytes(Header(duration, 0));
      r := if n > 0 then 1 else -1;
    }

    /** Publish everything staged, or nothing. */
    method Flush() returns (r: int)
      requires Valid()
      modifies wring, ring, ring.buff
      ensures Valid()
      ensures |old(ring.Contents())| + |old(wring.Contents())| <= MIDI_BUFFER_BYTES ==>
        r >= 0 && wring.Contents() == [] && ring.Contents() == old(ring.Contents()) + old(wring.Contents())
      ensures |old(ring.Contents())| + |old(wring.Contents())| > MIDI_BUFFER_BYTES ==>
        r == -1 && wring.Contents() == old(wring.Contents()) && ring.Contents() == old(ring.Contents())
    {
      var size := wring.AvailableToRead();
      var room := ring.AvailableToWrite();
      if room < size { return -1; }
      ghost var staged := wring.Contents();
      r := wring.MoveTo(size, ring);
      assert staged[..size] == staged && staged[size..] == [];
    }

    method Drop()
      requires Valid()
      modifies wring
      ensures Valid() && wring.Contents() == []
    {
      wring.Reset();
    }

    // ---- the read side ----

    /** The k-th dequeued event carries record r at absolute time `time`, its bytes in one piece. */
    ghost predicate Carries(k: nat, r: Record, time: nat, start: nat)
      requires ReadValid() && k < eventCount
      reads this, ring, ring.buff, rring, rring.buff, events
    {
      var e := events[k];
      && start + e.time == time && e.size == |r.payload|
      && e.offset + e.size <= MIDI_BUFFER_BYTES
      && rring.buff[e.offset..e.offset + e.size] == r.payload
    }

    /** Dequeue one record: its header, its time, and its payload into the read buffer. */
    method TakeRecord(start: nat, ghost rs: seq<Record>) returns (e: Event, duration: nat)
      requires ReadValid() && ring.Contents() == EncodeAll(rs) && rs != [] && Fits(rs[0])
      requires rring.read == 0 && |rring.log| + |rs[0].payload| <= MIDI_BUFFER_BYTES
      modifies ring, rring, rring.buff
      ensures ReadValid() && ring.Contents() == EncodeAll(rs[1..]) && duration == rs[0].duration
      ensures rring.read == 0 && rring.log == old(rring.log) + rs[0].payload
      ensures Staged(e, rs[0], Later(headFrame, start), start, rring.log)
    {
      ghost var log, p := rring.log, rs[0].payload;
      FirstRecord(rs);
      var _, header := ring.Get(HEADER);
      duration := HeaderDuration(header);
      var size := HeaderSize(header);
      var time := if headFrame > start then headFrame - start else 0;
      assert ring.Contents()[..size] == p && ring.Contents()[size..] == EncodeAll(rs[1..]);
      StageLast(log, p, rs[0], start + time, start);
      if size != 0 {
        var offset := rring.Index(rring.wptr, |rring.log|, 0);
        var _ := ring.MoveTo(size, rring);
        e := Event(time, size, offset);
        assert rring.log == log + p && offset == |log|;
      } else {
        e := Event(time, size, 0);
        assert rring.log == log + p;
      }
    }

    /** The events so far hold the first eventCount records of rs at the given times. */
    ghost predicate Taken(rs: seq<Record>, times: seq<nat>, start: nat)
      reads this, rring, events
    {
      eventCount <= events.Length && AllStaged(events[..eventCount], rs, times, start, rring.log)
    }

    /** Store one record's event and move the head frame past it. */
    method StoreNext(start: nat, ghost rs: seq<Record>, ghost times: seq<nat>)
      requires ReadValid() && eventCount < MAX_EVENTS && eventCount < |rs| && AllFit(rs)
      requires ring.Contents() == EncodeAll(rs[eventCount..]) && Taken(rs, times, start)
      requires rring.read == 0 && |rring.log| + |rs[eventCount].payload| <= MIDI_BUFFER_BYTES
      modifies this, ring, rring, rring.buff, events
      ensures ReadValid() && eventCount == old(eventCount) + 1
      ensures ring.Contents() == EncodeAll(rs[eventCount..])
      ensures rring.read == 0 && |rring.log| == |old(rring.log)| + |rs[old(eventCount)].payload|
      ensures var time := Later(old(headFrame), start);
        Taken(rs, times + [time], start) && headFrame == time + rs[old(eventCount)].duration
    {
      ghost var log, before := rring.log, events[..eventCount];
      assert rs[eventCount..][1..] == rs[eventCount + 1..];
      var e, duration := TakeRecord(start, rs[eventCount..]);
      events[eventCount] := e;
      headFrame := start + e.time;
      if headFrame == 0 { headFrame := start; }
      headFrame := headFrame + duration;
      eventCount := eventCount + 1;
      assert events[..eventCount] == before + [e];
      TakenGrows(before, rs, times, start, log, e, Later(old(headFrame), start), rring.log);
    }

    /** The loop's state: eventCount records of rs taken, the rest still in the ring. */
    ghost predicate Progress(rs: seq<Record>, times: seq<nat>, head: nat, start: nat, end: nat)
      reads this, ring, ring.buff, rring, rring.buff, events
    {
      && ReadValid() && AllFit(rs) && Taken(rs, times, start)
      && ring.Contents() == EncodeAll(rs[eventCount..])
      && rring.read == 0 && |rring.log| + PayloadBytes(rs[eventCount..]) <= MIDI_BUFFER_BYTES
      && Going(rs, times, head, start, end, headFrame)
    }

    /** One turn of the loop. */
    method TakeNext(start: nat, ghost rs: seq<Record>, ghost times: seq<nat>, ghost head: nat, ghost end: nat)
      returns (ghost times': seq<nat>)
      requires Progress(rs, times, head, start, end)
      requires eventCount < MAX_EVENTS && headFrame < end && |ring.Contents()| >= HEADER
      modifies this, ring, rring, rring.buff, events
      ensures Progress(rs, times', head, start, end) && eventCount == old(eventCount) + 1
    {
      assert rs[eventCount..][1..] == rs[eventCount + 1..];
      ghost var due := headFrame;
      StoreNext(start, rs, times);
      times' := times + [Later(due, start)];
      GoesOn(rs, times, head, start, end, due, times', headFrame);
    }

    /** The loop: until the next record is not due, there are no more, or 64 have been taken. */
    method Drain(nframes: nat, start: nat, ghost rs: seq<Record>, ghost head: nat, ghost end: nat)
      returns (ghost times: seq<nat>)
      requires Progress(rs, [], head, start, end) && end == start + nframes
      modifies this, ring, rring, rring.buff, events
      ensures Progress(rs, times, head, start, end)
      ensures |times| == MAX_EVENTS || end <= headFrame || |ring.Contents()| < HEADER
    {
      times := [];
      var more := ring.AvailableToRead();
      while eventCount < MAX_EVENTS && headFrame < start + nframes && more >= HEADER
        invariant Progress(rs, times, head, start, end) && more == |ring.Contents()|
        decreases MAX_EVENTS - eventCount
      {
        times := TakeNext(start, rs, times, head, end);
        more := ring.AvailableToRead();
      }
    }

    /**
     The records due before the end of this callback, at most 64 of them, become its events.  No writer runs
     inside the call, so the ring holds whole records.
     */
    method GetBuffer(nframes: nat, start: nat, ghost rs: seq<Record>, ghost head: nat, ghost end: nat)
      returns (ghost times: seq<nat>)
      requires Valid() && ring.Contents() == EncodeAll(rs) && AllFit(rs)
      requires head == headFrame && end == start + nframes
      modifies this, ring, rring, rring.buff, events
      ensures Valid() && eventCount == |times|
      ensures IsBatch(rs, times, head, start, end, headFrame)
      ensures ring.Contents() == EncodeAll(rs[eventCount..])
      ensures forall k :: 0 <= k < eventCount ==> Carries(k, rs[k], times[k], start)
    {
      rring.Reset();
      eventCount := 0;
      assert rs[0..] == rs;
      EncodedLength(rs);
      times := Drain(nframes, start, rs, head, end);
      BatchEnds(rs, times, head, start, end, headFrame);
      AllReadBack(rs, times, start);
    }

    lemma AllReadBack(rs: seq<Record>, times: seq<nat>, start: nat)
      requires ReadValid() && rring.read == 0 && Taken(rs, times, start)
      ensures forall k :: 0 <= k < eventCount ==> Carries(k, rs[k], times[k], start)
    {
      forall k | 0 <= k < eventCount ensures Carries(k, rs[k], times[k], start) {
        assert events[k] == events[..eventCount][k];
        ReadBack(k, rs[k], times[k], start);
      }
    }

    /** The read buffer was filled from its start, so what was put in lies in one piece. */
    lemma ReadBack(k: nat, r: Record, time: nat, start: nat)
      requires ReadValid() && k < eventCount && rring.read == 0
      requires Staged(events[k], r, time, start, rring.log)
      ensures Carries(k, r, time, start)
    {
      forall p | events[k].offset <= p < events[k].offset + events[k].size ensures rring.buff[p] == rring.log[p] {
        assert Slot(p, MIDI_BUFFER_BYTES) == p;
      }
    }
  }

  /** Event e carries record r, told from the bytes put into the read buffer so far. */
  ghost predicate Staged(e: Event, r: Record, time: nat, start: nat, log: seq<Byte>) {
    && start + e.time == time && e.size == |r.payload|
    && e.offset + e.size <= |log|
    && log[e.offset..e.offset + e.size] == r.payload
  }

  ghost predicate AllStaged(events: seq<Event>, rs: seq<Record>, times: seq<nat>, start: nat, log: seq<Byte>) {
    && |events| == |times| <= |rs|
    && forall k :: 0 <= k < |events| ==> Staged(events[k], rs[k], times[k], start, log)
  }

  lemma TakenGrows(events: seq<Event>, rs: seq<Record>, times: seq<nat>, start: nat, log: seq<Byte>,
                   e: Event, time: nat, log': seq<Byte>)
    requires AllStaged(events, rs, times, start, log) && log <= log' && |events| < |rs|
    requires Staged(e, rs[|events|], time, start, log')
    ensures AllStaged(events + [e], rs, times + [time], start, log')
  {
    forall k | 0 <= k < |events| ensures Staged(events[k], rs[k], times[k], start, log') {
      StagedGrows(events[k], rs[k], times[k], start, log, log');
    }
  }

  lemma StagedGrows(e: Event, r: Record, time: nat, start: nat, log: seq<Byte>, log': seq<Byte>)
    requires Staged(e, r, time, start, log) && log <= log'
    ensures Staged(e, r, time, start, log')
  {
    assert log == log'[..|log|];
  }

  lemma StageLast(log: seq<Byte>, p: seq<Byte>, r: Record, time: nat, start: nat)
    requires start <= time && p == r.payload
    ensures Staged(Event(time - start, |p|, |log|), r, time, start, log + p)
    ensures p == [] ==> Staged(Event(time - start, 0, 0), r, time, start, log)
  {
  }
}
