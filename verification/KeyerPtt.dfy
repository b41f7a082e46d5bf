/** sdrtcl/keyer_ptt.c: delay the key so that the push-to-talk switch can lead it and hang on behind it. */
module KeyerPtt {

  /** A MIDI event: three bytes, the first split into its command and channel, or any other size. */
  datatype Message = Short(command: int, chan: int, note: int, velocity: int) | Other(size: nat)

  const NOTE_OFF := 0x80
  const NOTE_ON := 0x90

  // 8192 bytes of ring, eight to a delayed note
  const CAPACITY := 1024

  datatype Config = Config(chan: int, note: int, delay: nat, hang: int)

  /** A note waiting for its frame. */
  datatype Entry = Entry(due: nat, midi: Message)

  datatype Ptt = Ptt(keyOn: bool, pttOn: bool, hangCount: int, queue: seq<Entry>)

  const AT_REST := Ptt(false, false, 0, [])

  /** A note on or off for the keyed note on the right channel. */
  predicate Matches(c: Config, m: Message) {
    && m.Short?
    && (m.command == NOTE_ON || m.command == NOTE_OFF)
    && m.chan == c.chan && m.note == c.note
  }

  predicate IsOn(m: Message) {
    m.Short? && m.command == NOTE_ON && m.velocity > 0
  }

  function PttMessage(c: Config, velocity: int): Message {
    Short(NOTE_ON, c.chan, c.note + 1, velocity)
  }

  // ---- one frame, as a specification ----

  function Matching(c: Config, events: seq<Message>): seq<Message> {
    if events == [] then [] else
      var rest := Matching(c, events[..|events| - 1]);
      if Matches(c, events[|events| - 1]) then rest + [events[|events| - 1]] else rest
  }

  function Stamp(notes: seq<Message>, due: nat): (q: seq<Entry>)
    ensures |q| == |notes|
  {
    seq(|notes|, k requires 0 <= k < |notes| => Entry(due, notes[k]))
  }

  /** The first `room` messages. */
  function Keep(m: seq<Message>, room: int): (r: seq<Message>)
    ensures |r| == if |m| <= room then |m| else if room < 0 then 0 else room
  {
    if m == [] || |m| <= room then m else Keep(m[..|m| - 1], room)
  }

  /** Notes beyond the room in the queue are lost. */
  function Accepted(c: Config, room: int, events: seq<Message>): seq<Message> {
    Keep(Matching(c, events), room)
  }

  /** The first key-down among the notes, if there is one. */
  function FirstOn(notes: seq<Message>): seq<Message> {
    if notes == [] then [] else if IsOn(notes[0]) then [notes[0]] else FirstOn(notes[1..])
  }

  /** Where the run of entries due now that holds index i ends. */
  function DueEnd(q: seq<Entry>, now: nat, i: nat): (n: nat)
    requires i <= |q|
    ensures i <= n <= |q|
    decreases |q| - i
  {
    if i < |q| && q[i].due == now then DueEnd(q, now, i + 1) else i
  }

  /** How many entries at the front of the queue are due now. */
  function DueCount(q: seq<Entry>, now: nat): (n: nat)
    ensures n <= |q|
  {
    DueEnd(q, now, 0)
  }

  lemma {:induction false} DueEndIs(q: seq<Entry>, now: nat, i: nat)
    requires i <= |q|
    ensures var n := DueEnd(q, now, i);
      (forall k :: i <= k < n ==> q[k].due == now) && (n < |q| ==> q[n].due != now)
    decreases |q| - i
  {
    if i < |q| && q[i].due == now {
      DueEndIs(q, now, i + 1);
    }
  }

  function Notes(q: seq<Entry>): (m: seq<Message>)
    ensures |m| == |q|
  {
    seq(|q|, k requires 0 <= k < |q| => q[k].midi)
  }

  /** The key after a run of notes. */
  function KeyAfter(key: bool, notes: seq<Message>): bool {
    if notes == [] then key else IsOn(notes[|notes| - 1])
  }

  /** Any key-up among the notes restarts the hang count. */
  function HangAfter(c: Config, hang: int, notes: seq<Message>): int {
    if notes == [] then hang
    else if IsOn(notes[|notes| - 1]) then HangAfter(c, hang, notes[..|notes| - 1])
    else c.hang
  }

  /** What one frame sends: the switch going on, the delayed notes, the switch going off. */
  datatype Sent = Sent(rise: seq<Message>, notes: seq<Message>, fall: seq<Message>)

  function All(s: Sent): seq<Message> {
    s.rise + s.notes + s.fall
  }

  /** After the events of a frame have been taken in. */
  function TakeIn(c: Config, s: Ptt, now: nat, events: seq<Message>): Ptt {
    var notes := Accepted(c, CAPACITY - |s.queue|, events);
    var keyed := FirstOn(notes) != [];
    Ptt(s.keyOn || keyed, s.pttOn || keyed, s.hangCount, s.queue + Stamp(notes, now + c.delay))
  }

  /** After the notes due at a frame have been let out. */
  function LetOut(c: Config, s: Ptt, now: nat): Ptt {
    var n := DueCount(s.queue, now);
    var notes := Notes(s.queue[..n]);
    Ptt(KeyAfter(s.keyOn, notes), s.pttOn, HangAfter(c, s.hangCount, notes), s.queue[n..])
  }

  function CountDown(s: Ptt): Ptt {
    if !s.keyOn && s.pttOn then Ptt(s.keyOn, s.hangCount - 1 > 0, s.hangCount - 1, s.queue) else s
  }

  function Frame(c: Config, s: Ptt, now: nat, events: seq<Message>): Ptt {
    CountDown(LetOut(c, TakeIn(c, s, now, events), now))
  }

  function Rise(c: Config, s: Ptt, events: seq<Message>): seq<Message>
  {
    var on := FirstOn(Accepted(c, CAPACITY - |s.queue|, events));
    if !s.pttOn && on != [] then [PttMessage(c, Velocity(on[0]))] else []
  }

  function FrameSends(c: Config, s: Ptt, now: nat, events: seq<Message>): Sent
  {
    var s1 := TakeIn(c, s, now, events);
    var s2 := LetOut(c, s1, now);
    Sent(Rise(c, s, events),
         Notes(s1.queue[..DueCount(s1.queue, now)]),
         if s2.pttOn && !CountDown(s2).pttOn then [PttMessage(c, 0)] else [])
  }

  function Velocity(m: Message): int {
    if m.Short? then m.velocity else 0
  }

  ghost predicate Steps(c: Config, s: Ptt, now: nat, events: seq<Message>, s': Ptt, out: seq<Message>) {
    s' == Frame(c, s, now, events) && out == All(FrameSends(c, s, now, events))
  }

  /** A run from frame time `frame` on: the events, the states and what was sent, frame by frame. */
  ghost predicate IsRun(c: Config, frame: nat, inputs: seq<seq<Message>>, states: seq<Ptt>, outs: seq<seq<Message>>) {
    && |states| == |inputs| + 1 && |outs| == |inputs|
    && forall k :: 0 <= k < |inputs| ==> StepAt(c, frame, inputs, states, outs, k)
  }

  ghost predicate StepAt(c: Config, frame: nat, inputs: seq<seq<Message>>, states: seq<Ptt>, outs: seq<seq<Message>>,
                         k: nat) {
    && k < |inputs| && k < |outs| && k + 1 < |states|
    && Steps(c, states[k], frame + k, inputs[k], states[k + 1], outs[k])
  }

  ghost predicate QueueMatches(c: Config, q: seq<Entry>) {
    forall k :: 0 <= k < |q| ==> Matches(c, q[k].midi)
  }

  // ---- the component ----

  class Switch {
    const c: Config
    var keyOn: bool
    var pttOn: bool
    var hangCount: int
    var rb: seq<Entry>

    ghost function Value(): Ptt
      reads this
    {
      Ptt(keyOn, pttOn, hangCount, rb)
    }

    constructor (c: Config)
        ensures this.c == c && Valid() && Value() == AT_REST
    {
      this.c := c;
      keyOn, pttOn, hangCount, rb := false, false, 0, [];
    }

    ghost predicate Valid()
      reads this
    {
      QueueMatches(c, rb)
    }

    /** One event: queue it if it is ours and there is room, and raise the switch on a key-down. */
    method TakeEvent(now: nat, event: Message) returns (out: seq<Message>)
      requires Valid()
      modifies this
      ensures Valid() && hangCount == old(hangCount)
      ensures var taken := Matches(c, event) && |old(rb)| < CAPACITY;
        && rb == (if taken then old(rb) + [Entry(now + c.delay, event)] else old(rb))
        && keyOn == (old(keyOn) || (taken && IsOn(event)))
        && pttOn == (old(pttOn) || (taken && IsOn(event)))
        && out == (if taken && IsOn(event) && !old(pttOn) then [PttMessage(c, Velocity(event))] else [])
    {
      out := [];
      if event.Short? && |rb| < CAPACITY {
        if (event.command == NOTE_ON || event.command == NOTE_OFF)
           && event.chan == c.chan && event.note == c.note {
          rb := rb + [Entry(now + c.delay, event)];
          if event.command == NOTE_ON && event.velocity > 0 {
            keyOn := true;
            if !pttOn {
              pttOn := true;
              out := [PttMessage(c, event.velocity)];
            }
          }
        }
      }
    }

    /** One more event of a frame. */
    method TakeNextEvent(now: nat, event: Message, ghost s0: Ptt, ghost before: seq<Message>)
      returns (out: seq<Message>)
      requires Valid() && Value() == TakeIn(c, s0, now, before)
      modifies this
      ensures Valid() && Value() == TakeIn(c, s0, now, before + [event])
      ensures Rise(c, s0, before + [event]) == Rise(c, s0, before) + out
    {
      TakeInOneMore(c, s0, now, before, event);
      out := TakeEvent(now, event);
    }

    /** The events of one frame, one after the other. */
    method TakeEvents(now: nat, events: seq<Message>) returns (out: seq<Message>)
      requires Valid()
      modifies this
      ensures Valid() && Value() == TakeIn(c, old(Value()), now, events)
      ensures out == Rise(c, old(Value()), events)
    {
      out := [];
      ghost var s0 := Value();
      assert events[..0] == [];
      assert rb + Stamp([], now + c.delay) == rb;
      for i := 0 to |events|
        invariant Valid() && Value() == TakeIn(c, s0, now, events[..i])
        invariant out == Rise(c, s0, events[..i])
      {
        assert events[..i + 1] == events[..i] + [events[i]];
        var sent := TakeNextEvent(now, events[i], s0, events[..i]);
        out := out + sent;
      }
      assert events[..|events|] == events;
    }

    /** Let the first note out. */
    method ReleaseNote() returns (midi: Message)
      requires Valid() && rb != []
      modifies this
      ensures Valid() && midi == old(rb)[0].midi && rb == old(rb)[1..] && pttOn == old(pttOn)
      ensures keyOn == IsOn(midi) && hangCount == if IsOn(midi) then old(hangCount) else c.hang
    {
      midi := rb[0].midi;
      rb := rb[1..];
      if midi.command == NOTE_ON {
        if midi.velocity > 0 {
          keyOn := true;
        } else {
          keyOn := false;
          hangCount := c.hang;
        }
      } else if midi.command == NOTE_OFF {
        keyOn := false;
        hangCount := c.hang;
      }
    }

    /** The delayed notes for this frame. */
    method ReleaseNotes(now: nat) returns (out: seq<Message>)
      requires Valid()
      modifies this
      ensures Valid() && Value() == LetOut(c, old(Value()), now)
      ensures out == Notes(old(rb)[..DueCount(old(rb), now)])
    {
      out := [];
      ghost var s0 := Value();
      ghost var i := 0;
      DueEndIs(rb, now, 0);
      assert Notes(s0.queue[..0]) == [];
      while rb != [] && rb[0].due == now
        invariant Valid() && 0 <= i <= DueCount(s0.queue, now)
        invariant rb == s0.queue[i..] && out == Notes(s0.queue[..i])
        invariant keyOn == KeyAfter(s0.keyOn, out) && hangCount == HangAfter(c, s0.hangCount, out)
        invariant pttOn == s0.pttOn
        decreases |rb|
      {
        assert Notes(s0.queue[..i + 1]) == Notes(s0.queue[..i]) + [s0.queue[i].midi];
        HangOneMore(c, s0.hangCount, out, rb[0].midi);
        var midi := ReleaseNote();
        out := out + [midi];
        i := i + 1;
      }
    }

    method DoFrame(ghost s: Ptt, now: nat, events: seq<Message>) returns (out: seq<Message>)
      requires Valid() && s == Value()
      modifies this
      ensures Valid() && Steps(c, s, now, events, Value(), out)
    {
      var rise := TakeEvents(now, events);
      var notes := ReleaseNotes(now);
      var fall: seq<Message> := [];
      if !keyOn && pttOn {
        hangCount := hangCount - 1;
        if hangCount <= 0 {
          pttOn := false;
          fall := [PttMessage(c, 0)];
        }
      }
      out := rise + notes + fall;
    }

    /** The process callback: all the frames of one period. */
    method Process(frame: nat, inputs: seq<seq<Message>>) returns (outs: seq<seq<Message>>, ghost states: seq<Ptt>)
      requires Valid()
      modifies this
      ensures Valid() && IsRun(c, frame, inputs, states, outs)
      ensures states[0] == old(Value()) && states[|inputs|] == Value()
    {
      outs := [];
      states := [Value()];
      for i := 0 to |inputs|
        invariant Valid() && |states| == i + 1 && |outs| == i
        invariant states[0] == old(Value()) && states[i] == Value()
        invariant forall k :: 0 <= k < i ==> StepAt(c, frame, inputs, states, outs, k)
      {
        ghost var states0, outs0 := states, outs;
        var out := DoFrame(states[i], frame + i, inputs[i]);
        outs := outs + [out];
        states := states + [Value()];
        forall k | 0 <= k <= i ensures StepAt(c, frame, inputs, states, outs, k) {
          assert k < i ==> StepAt(c, frame, inputs, states0, outs0, k);
        }
      }
    }
  }

  lemma FirstOnAppend(notes: seq<Message>, m: Message)
    ensures FirstOn(notes + [m]) == if FirstOn(notes) != [] then FirstOn(notes) else if IsOn(m) then [m] else []
  {
    if notes != [] {
      assert (notes + [m])[1..] == notes[1..] + [m];
      FirstOnAppend(notes[1..], m);
    }
  }

  lemma TakeInOneMore(c: Config, s: Ptt, now: nat, events: seq<Message>, event: Message)
    ensures var s1 := TakeIn(c, s, now, events);
      var taken := Matches(c, event) && |s1.queue| < CAPACITY;
      && TakeIn(c, s, now, events + [event]) == (if !taken then s1 else
           s1.(keyOn := s1.keyOn || IsOn(event), pttOn := s1.pttOn || IsOn(event),
               queue := s1.queue + [Entry(now + c.delay, event)]))
      && Rise(c, s, events + [event]) == Rise(c, s, events) +
           (if taken && IsOn(event) && !s1.pttOn then [PttMessage(c, Velocity(event))] else [])
  {
    var room := CAPACITY - |s.queue|;
    var before, after := Accepted(c, room, events), Accepted(c, room, events + [event]);
    assert (events + [event])[..|events|] == events;
    FirstOnAppend(before, event);
    var m := Matching(c, events);
    assert (m + [event])[..|m|] == m;
    if Matches(c, event) && |before| < room {
      assert after == before + [event];
      assert Stamp(after, now + c.delay) == Stamp(before, now + c.delay) + [Entry(now + c.delay, event)];
    } else {
      assert after == before;
    }
  }

  lemma HangOneMore(c: Config, hang: int, notes: seq<Message>, m: Message)
    ensures HangAfter(c, hang, notes + [m]) == if IsOn(m) then HangAfter(c, hang, notes) else c.hang
  {
    assert (notes + [m])[..|notes|] == notes;
  }
}
