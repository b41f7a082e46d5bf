/** What the push-to-talk sequencer promises over whole runs, stated on what it sends. */
module KeyerPttCover {
  import opened KeyerPtt

  ghost predicate RestRun(c: Config, frame: nat, inputs: seq<seq<Message>>, states: seq<Ptt>, outs: seq<seq<Message>>) {
    IsRun(c, frame, inputs, states, outs) && states[0] == AT_REST
  }

  lemma RunStep(c: Config, frame: nat, inputs: seq<seq<Message>>, states: seq<Ptt>, outs: seq<seq<Message>>, k: nat)
    requires IsRun(c, frame, inputs, states, outs) && k < |inputs|
    ensures Steps(c, states[k], frame + k, inputs[k], states[k + 1], outs[k])
  {
    assert StepAt(c, frame, inputs, states, outs, k);
  }

  // ---- the notes that key the switch ----

  /** A note on or off, of three bytes, for note n on the right channel: by its status byte, 0x9X or 0x8X. */
  predicate OnKey(c: Config, n: int, m: Message) {
    && m.Short?
    && (m.command == 0x90 || m.command == 0x80)
    && m.chan == c.chan && m.note == n
  }

  /** Down is a note on with some velocity. */
  predicate KeyDown(m: Message) {
    m.Short? && m.command == 0x90 && m.velocity > 0
  }

  /** Those for the keyed note, in order. */
  function Ours(c: Config, events: seq<Message>): seq<Message> {
    if events == [] then [] else
      var last := events[|events| - 1];
      Ours(c, events[..|events| - 1]) + if OnKey(c, c.note, last) then [last] else []
  }

  lemma {:induction false} OursIsMatching(c: Config, events: seq<Message>)
    ensures Ours(c, events) == Matching(c, events)
  {
    if events != [] {
      OursIsMatching(c, events[..|events| - 1]);
    }
  }

  /**
   An event on another channel, for another note, with another command or of another size makes no difference
   at all.
   */
  lemma OthersAreIgnored(c: Config, s: Ptt, now: nat, before: seq<Message>, m: Message, after: seq<Message>)
    requires !OnKey(c, c.note, m)
    ensures Frame(c, s, now, before + [m] + after) == Frame(c, s, now, before + after)
    ensures FrameSends(c, s, now, before + [m] + after) == FrameSends(c, s, now, before + after)
  {
    OursWithout(c, before, m, after);
    OursIsMatching(c, before + [m] + after);
    OursIsMatching(c, before + after);
  }

  lemma OursWithout(c: Config, before: seq<Message>, m: Message, after: seq<Message>)
    requires !OnKey(c, c.note, m)
    ensures Ours(c, before + [m] + after) == Ours(c, before + after)
  {
    FilterConcat(c, before + [m], after);
    FilterConcat(c, before, after);
    assert (before + [m])[..|before|] == before;
  }

  /** With room in the queue, an event for it is taken in with its delay; a key-down turns the key and the switch on. */
  lemma OursAreTaken(c: Config, s: Ptt, now: nat, m: Message)
    requires OnKey(c, c.note, m) && |s.queue| < CAPACITY
    ensures TakeIn(c, s, now, [m]) ==
      Ptt(s.keyOn || KeyDown(m), s.pttOn || KeyDown(m), s.hangCount, s.queue + [Entry(now + c.delay, m)])
    ensures FrameSends(c, s, now, [m]).rise ==
      if KeyDown(m) && !s.pttOn then [Short(0x90, c.chan, c.note + 1, m.velocity)] else []
  {
    assert [m][..0] == [] && [m][1..] == [];
    assert Ours(c, [m]) == [m];
    OursIsMatching(c, [m]);
    assert Accepted(c, CAPACITY - |s.queue|, [m]) == [m];
    assert FirstOn([m]) == if KeyDown(m) then [m] else [];
    assert Stamp([m], now + c.delay) == [Entry(now + c.delay, m)];
  }

  /** When the switch goes off it says so with a note of no velocity, and it does when it was on and is not any more. */
  lemma FallIsSent(c: Config, s: Ptt, now: nat, events: seq<Message>)
    ensures FrameSends(c, s, now, events).fall ==
      if TakeIn(c, s, now, events).pttOn && !Frame(c, s, now, events).pttOn
      then [Short(0x90, c.chan, c.note + 1, 0)] else []
  {
  }

  // ---- the delay ----

  /** Stamped notes of the frames lo..hi-1. */
  function Pending(c: Config, frame: nat, inputs: seq<seq<Message>>, lo: nat, hi: nat): seq<Entry>
    requires lo <= hi <= |inputs|
  {
    if lo == hi then []
    else Pending(c, frame, inputs, lo, hi - 1) + Stamp(Ours(c, inputs[hi - 1]), frame + hi - 1 + c.delay)
  }

  function WindowStart(c: Config, k: nat): nat {
    if k < c.delay then 0 else k - c.delay
  }

  /** The notes of any delay+1 successive frames fit in the queue. */
  ghost predicate Fits(c: Config, inputs: seq<seq<Message>>) {
    forall k :: 0 <= k < |inputs| ==> |Pending(c, 0, inputs, WindowStart(c, k), k + 1)| <= CAPACITY
  }

  /** What should come out at frame k: the notes that came in `delay` frames before. */
  function Delayed(c: Config, inputs: seq<seq<Message>>, k: nat): seq<Message>
    requires k < |inputs|
  {
    if k < c.delay then [] else Ours(c, inputs[k - c.delay])
  }

  lemma {:induction false} PendingSize(c: Config, frame: nat, inputs: seq<seq<Message>>, lo: nat, hi: nat)
    requires lo <= hi <= |inputs|
    ensures |Pending(c, frame, inputs, lo, hi)| == |Pending(c, 0, inputs, lo, hi)|
  {
    if lo < hi {
      PendingSize(c, frame, inputs, lo, hi - 1);
    }
  }

  lemma {:induction false} PendingSplit(c: Config, frame: nat, inputs: seq<seq<Message>>, lo: nat, hi: nat)
    requires lo < hi <= |inputs|
    ensures Pending(c, frame, inputs, lo, hi) ==
      Stamp(Ours(c, inputs[lo]), frame + lo + c.delay) + Pending(c, frame, inputs, lo + 1, hi)
  {
    if lo + 1 < hi {
      PendingSplit(c, frame, inputs, lo, hi - 1);
      PendingGrows(c, frame, inputs, lo, hi);
      PendingGrows(c, frame, inputs, lo + 1, hi);
      EntriesAssociate(Stamp(Ours(c, inputs[lo]), frame + lo + c.delay), Pending(c, frame, inputs, lo + 1, hi - 1),
                       Stamp(Ours(c, inputs[hi - 1]), frame + hi - 1 + c.delay));
    } else {
      PendingGrows(c, frame, inputs, lo, hi);
      var first := Stamp(Ours(c, inputs[lo]), frame + lo + c.delay);
      assert [] + first == first + [];
    }
  }

  lemma PendingGrows(c: Config, frame: nat, inputs: seq<seq<Message>>, lo: nat, hi: nat)
    requires lo < hi <= |inputs|
    ensures Pending(c, frame, inputs, lo, hi) ==
      Pending(c, frame, inputs, lo, hi - 1) + Stamp(Ours(c, inputs[hi - 1]), frame + hi - 1 + c.delay)
  {
  }

  lemma EntriesAssociate(a: seq<Entry>, b: seq<Entry>, c: seq<Entry>)
    ensures (a + b) + c == a + (b + c)
  {
  }

  lemma {:induction false} PendingDue(c: Config, frame: nat, inputs: seq<seq<Message>>, lo: nat, hi: nat)
    requires lo <= hi <= |inputs|
    ensures forall e :: e in Pending(c, frame, inputs, lo, hi) ==> frame + lo + c.delay <= e.due
  {
    if lo < hi {
      PendingDue(c, frame, inputs, lo, hi - 1);
    }
  }

  /** Exactly the notes at the front that are due are let out. */
  lemma ReleaseFront(a: seq<Entry>, b: seq<Entry>, now: nat)
    requires forall k :: 0 <= k < |a| ==> a[k].due == now
    requires b != [] ==> b[0].due != now
    ensures DueCount(a + b, now) == |a|
    ensures (a + b)[..|a|] == a && (a + b)[|a|..] == b
  {
    DueEndIs(a + b, now, 0);
    assert forall k :: 0 <= k < |a| ==> (a + b)[k] == a[k];
    assert b != [] ==> (a + b)[|a|] == b[0];
  }

  lemma {:induction false} FilterConcat(c: Config, a: seq<Message>, b: seq<Message>)
    ensures Ours(c, a + b) == Ours(c, a) + Ours(c, b)
  {
    if b == [] {
      assert a + b == a;
    } else {
      assert (a + b)[..|a + b| - 1] == a + b[..|b| - 1];
      FilterConcat(c, a, b[..|b| - 1]);
    }
  }

  lemma {:induction false} FilterIdempotent(c: Config, a: seq<Message>)
    ensures Ours(c, Ours(c, a)) == Ours(c, a)
    ensures forall m :: m in Ours(c, a) ==> Matches(c, m)
  {
    if a != [] {
      var rest, last := Ours(c, a[..|a| - 1]), a[|a| - 1];
      FilterIdempotent(c, a[..|a| - 1]);
      assert (rest + [last])[..|rest|] == rest && rest + [] == rest;
    }
  }

  lemma StampNotes(notes: seq<Message>, due: nat)
    ensures Notes(Stamp(notes, due)) == notes
  {
  }

  /** With room for all its notes, a frame's events extend the queue by one group. */
  lemma TakeInPending(c: Config, frame: nat, inputs: seq<seq<Message>>, k: nat, s: Ptt)
    requires k < |inputs|
    requires s.queue == Pending(c, frame, inputs, WindowStart(c, k), k)
    requires |Pending(c, frame, inputs, WindowStart(c, k), k + 1)| <= CAPACITY
    ensures TakeIn(c, s, frame + k, inputs[k]).queue == Pending(c, frame, inputs, WindowStart(c, k), k + 1)
  {
    var m := Ours(c, inputs[k]);
    assert |s.queue| + |m| == |Pending(c, frame, inputs, WindowStart(c, k), k + 1)|;
    OursIsMatching(c, inputs[k]);
    assert Accepted(c, CAPACITY - |s.queue|, inputs[k]) == m;
  }

  lemma FrontIsReleased(notes: seq<Message>, rest: seq<Entry>, now: nat)
    requires forall e :: e in rest ==> e.due > now
    ensures var q := Stamp(notes, now) + rest;
      var n := DueCount(q, now);
      Notes(q[..n]) == notes && q[n..] == rest
  {
    assert rest != [] ==> rest[0] in rest;
    ReleaseFront(Stamp(notes, now), rest, now);
    StampNotes(notes, now);
  }

  /** Before the window is full nothing is due. */
  lemma NothingDueYet(c: Config, frame: nat, inputs: seq<seq<Message>>, k: nat, q: seq<Entry>)
    requires k < |inputs| && k < c.delay && q == Pending(c, frame, inputs, 0, k + 1)
    ensures DueCount(q, frame + k) == 0
  {
    PendingDue(c, frame, inputs, 0, k + 1);
    ReleaseFront([], q, frame + k);
    assert [] + q == q;
  }

  /** The oldest group of a full window goes out. */
  lemma OldestIsDue(c: Config, frame: nat, inputs: seq<seq<Message>>, k: nat, q: seq<Entry>)
    requires c.delay <= k < |inputs| && q == Pending(c, frame, inputs, k - c.delay, k + 1)
    ensures var n := DueCount(q, frame + k);
      && Notes(q[..n]) == Ours(c, inputs[k - c.delay])
      && q[n..] == Pending(c, frame, inputs, k - c.delay + 1, k + 1)
  {
    var lo, now := k - c.delay, frame + k;
    PendingSplit(c, frame, inputs, lo, k + 1);
    PendingDue(c, frame, inputs, lo + 1, k + 1);
    var front, rest := Stamp(Ours(c, inputs[lo]), now), Pending(c, frame, inputs, lo + 1, k + 1);
    FrontIsReleased(Ours(c, inputs[lo]), rest, now);
    assert q == front + rest;
  }

  lemma LetOutPending(c: Config, frame: nat, inputs: seq<seq<Message>>, k: nat, q: seq<Entry>)
    requires k < |inputs| && q == Pending(c, frame, inputs, WindowStart(c, k), k + 1)
    ensures var n := DueCount(q, frame + k);
      && Notes(q[..n]) == Delayed(c, inputs, k)
      && q[n..] == Pending(c, frame, inputs, WindowStart(c, k + 1), k + 1)
  {
    if k < c.delay {
      NothingDueYet(c, frame, inputs, k, q);
    } else {
      OldestIsDue(c, frame, inputs, k, q);
    }
  }

  /** One frame with room for its notes: the queue moves on by one frame and its front goes out. */
  lemma DelayStep(c: Config, frame: nat, inputs: seq<seq<Message>>, k: nat, s: Ptt)
    requires k < |inputs|
    requires s.queue == Pending(c, frame, inputs, WindowStart(c, k), k)
    requires |Pending(c, frame, inputs, WindowStart(c, k), k + 1)| <= CAPACITY
    ensures Frame(c, s, frame + k, inputs[k]).queue == Pending(c, frame, inputs, WindowStart(c, k + 1), k + 1)
    ensures FrameSends(c, s, frame + k, inputs[k]).notes == Delayed(c, inputs, k)
  {
    TakeInPending(c, frame, inputs, k, s);
    LetOutPending(c, frame, inputs, k, TakeIn(c, s, frame + k, inputs[k]).queue);
  }

  lemma QueueStep(c: Config, frame: nat, inputs: seq<seq<Message>>, states: seq<Ptt>, outs: seq<seq<Message>>, k: nat)
    requires IsRun(c, frame, inputs, states, outs) && Fits(c, inputs) && k < |inputs|
    requires states[k].queue == Pending(c, frame, inputs, WindowStart(c, k), k)
    ensures states[k + 1].queue == Pending(c, frame, inputs, WindowStart(c, k + 1), k + 1)
    ensures Ours(c, outs[k]) == Delayed(c, inputs, k)
  {
    PendingSize(c, frame, inputs, WindowStart(c, k), k + 1);
    DelayStep(c, frame, inputs, k, states[k]);
    OnlyNotesMatch(c, states[k], frame + k, inputs[k]);
    DelayedMatch(c, inputs, k);
    RunStep(c, frame, inputs, states, outs, k);
  }

  lemma {:induction false} QueueIsPending(c: Config, frame: nat, inputs: seq<seq<Message>>, states: seq<Ptt>,
                                          outs: seq<seq<Message>>, k: nat)
    requires RestRun(c, frame, inputs, states, outs) && Fits(c, inputs) && k <= |inputs|
    ensures states[k].queue == Pending(c, frame, inputs, WindowStart(c, k), k)
  {
    if k > 0 {
      QueueIsPending(c, frame, inputs, states, outs, k - 1);
      QueueStep(c, frame, inputs, states, outs, k - 1);
    }
  }

  /** The keyed notes sent at any frame are exactly those received `delay` frames before, in order. */
  lemma NotesAreDelayed(c: Config, frame: nat, inputs: seq<seq<Message>>, states: seq<Ptt>, outs: seq<seq<Message>>,
                        k: nat)
    requires RestRun(c, frame, inputs, states, outs) && Fits(c, inputs) && k < |inputs|
    ensures Ours(c, outs[k]) == if k < c.delay then [] else Ours(c, inputs[k - c.delay])
  {
    QueueIsPending(c, frame, inputs, states, outs, k);
    QueueStep(c, frame, inputs, states, outs, k);
  }

  lemma DelayedMatch(c: Config, inputs: seq<seq<Message>>, k: nat)
    requires k < |inputs|
    ensures Ours(c, Delayed(c, inputs, k)) == Delayed(c, inputs, k)
  {
    if k >= c.delay {
      FilterIdempotent(c, inputs[k - c.delay]);
    }
  }

  lemma OnlyNotesMatch(c: Config, s: Ptt, now: nat, events: seq<Message>)
    ensures var sent := FrameSends(c, s, now, events);
      Ours(c, All(sent)) == Ours(c, sent.notes)
  {
    var sent := FrameSends(c, s, now, events);
    SwitchDoesNotMatch(c, sent.rise);
    SwitchDoesNotMatch(c, sent.fall);
    MatchingOfAll(c, sent);
  }

  lemma MatchingOfAll(c: Config, sent: Sent)
    ensures Ours(c, All(sent)) == Ours(c, sent.rise) + Ours(c, sent.notes) + Ours(c, sent.fall)
  {
    FilterConcat(c, sent.rise + sent.notes, sent.fall);
    FilterConcat(c, sent.rise, sent.notes);
  }

  lemma SwitchDoesNotMatch(c: Config, m: seq<Message>)
    requires |m| <= 1 && forall k :: 0 <= k < |m| ==> m[k].Short? && m[k].note == c.note + 1
    ensures Ours(c, m) == []
  {
    if m != [] {
      assert m[..0] == [];
    }
  }

  // ---- the cover ----

  /** Whether note n is down after the messages, going by the last one about it. */
  function LevelAfter(c: Config, n: int, before: bool, out: seq<Message>): bool {
    if out == [] then before else
      var m := out[|out| - 1];
      if OnKey(c, n, m) then KeyDown(m) else LevelAfter(c, n, before, out[..|out| - 1])
  }

  /** Whether note n is down after the first k frames. */
  function LevelAt(c: Config, n: int, outs: seq<seq<Message>>, k: nat): bool
    requires k <= |outs|
  {
    if k == 0 then false else LevelAfter(c, n, LevelAt(c, n, outs, k - 1), outs[k - 1])
  }

  /** The switch is on at the end of every frame at which the delayed key is down. */
  ghost predicate Covered(c: Config, outs: seq<seq<Message>>) {
    forall k :: 0 <= k <= |outs| && LevelAt(c, c.note, outs, k) ==> LevelAt(c, c.note + 1, outs, k)
  }

  ghost predicate AlwaysCovered(c: Config) {
    forall frame, inputs, states, outs :: RestRun(c, frame, inputs, states, outs) ==> Covered(c, outs)
  }

  lemma {:induction false} LevelConcat(c: Config, n: int, before: bool, a: seq<Message>, b: seq<Message>)
    ensures LevelAfter(c, n, before, a + b) == LevelAfter(c, n, LevelAfter(c, n, before, a), b)
  {
    if b == [] {
      assert a + b == a;
    } else {
      assert (a + b)[..|a + b| - 1] == a + b[..|b| - 1];
      LevelConcat(c, n, before, a, b[..|b| - 1]);
    }
  }

  lemma {:induction false} LevelOfNotes(c: Config, n: int, before: bool, notes: seq<Message>)
    requires forall k :: 0 <= k < |notes| ==> Matches(c, notes[k])
    ensures LevelAfter(c, n, before, notes) == if n == c.note then KeyAfter(before, notes) else before
  {
    if notes != [] {
      LevelOfNotes(c, n, before, notes[..|notes| - 1]);
    }
  }

  lemma LevelOfSwitch(c: Config, n: int, before: bool, m: seq<Message>)
    requires |m| <= 1 && forall k :: 0 <= k < |m| ==> m[k] == PttMessage(c, Velocity(m[k]))
    ensures LevelAfter(c, n, before, m) == if m != [] && n == c.note + 1 then Velocity(m[0]) > 0 else before
  {
    if m != [] {
      assert m[..0] == [];
    }
  }

  lemma {:induction false} FirstOnIsOn(notes: seq<Message>)
    ensures FirstOn(notes) != [] <==> exists k :: 0 <= k < |notes| && IsOn(notes[k])
    ensures FirstOn(notes) != [] ==> |FirstOn(notes)| == 1 && IsOn(FirstOn(notes)[0])
  {
    if notes != [] {
      FirstOnIsOn(notes[1..]);
      assert forall k :: 0 <= k < |notes| - 1 ==> notes[1..][k] == notes[k + 1];
      assert forall k :: 0 < k < |notes| ==> notes[k] == notes[1..][k - 1];
    }
  }

  lemma LevelOfAll(c: Config, n: int, before: bool, sent: Sent)
    ensures LevelAfter(c, n, before, All(sent)) ==
      LevelAfter(c, n, LevelAfter(c, n, LevelAfter(c, n, before, sent.rise), sent.notes), sent.fall)
  {
    LevelConcat(c, n, before, sent.rise + sent.notes, sent.fall);
    LevelConcat(c, n, before, sent.rise, sent.notes);
  }

  /** At most one message of the switch before the notes and one after, and nothing but our notes between. */
  ghost predicate OnlyOurs(c: Config, sent: Sent) {
    OfSwitch(c, sent.rise) && OfSwitch(c, sent.fall) && forall k :: 0 <= k < |sent.notes| ==> Matches(c, sent.notes[k])
  }

  ghost predicate OfSwitch(c: Config, m: seq<Message>) {
    |m| <= 1 && forall k :: 0 <= k < |m| ==> m[k] == PttMessage(c, Velocity(m[k]))
  }

  function SwitchAfter(sent: Sent, on: bool): bool {
    if sent.fall != [] then Velocity(sent.fall[0]) > 0
    else if sent.rise != [] then Velocity(sent.rise[0]) > 0
    else on
  }

  lemma FrameSendsOurs(c: Config, s: Ptt, now: nat, events: seq<Message>, sent: Sent)
    requires QueueMatches(c, TakeIn(c, s, now, events).queue) && sent == FrameSends(c, s, now, events)
    ensures OnlyOurs(c, sent) && SwitchAfter(sent, s.pttOn) == Frame(c, s, now, events).pttOn
  {
    FirstOnIsOn(Accepted(c, CAPACITY - |s.queue|, events));
  }

  lemma KeyLevelOfFrame(c: Config, sent: Sent, key: bool)
    requires OnlyOurs(c, sent)
    ensures LevelAfter(c, c.note, key, All(sent)) == KeyAfter(key, sent.notes)
  {
    LevelOfAll(c, c.note, key, sent);
    LevelOfSwitch(c, c.note, key, sent.rise);
    LevelOfNotes(c, c.note, key, sent.notes);
    LevelOfSwitch(c, c.note, KeyAfter(key, sent.notes), sent.fall);
  }

  lemma SwitchLevelOfFrame(c: Config, sent: Sent, on: bool)
    requires OnlyOurs(c, sent)
    ensures LevelAfter(c, c.note + 1, on, All(sent)) == SwitchAfter(sent, on)
  {
    LevelOfAll(c, c.note + 1, on, sent);
    LevelOfSwitch(c, c.note + 1, on, sent.rise);
    var up := LevelAfter(c, c.note + 1, on, sent.rise);
    LevelOfNotes(c, c.note + 1, up, sent.notes);
    LevelOfSwitch(c, c.note + 1, up, sent.fall);
  }

  /** What one frame's messages do to the two levels. */
  lemma LevelsOfFrame(c: Config, s: Ptt, now: nat, events: seq<Message>, key: bool)
    requires QueueMatches(c, TakeIn(c, s, now, events).queue)
    ensures var sent := FrameSends(c, s, now, events);
      && LevelAfter(c, c.note, key, All(sent)) == KeyAfter(key, sent.notes)
      && LevelAfter(c, c.note + 1, s.pttOn, All(sent)) == Frame(c, s, now, events).pttOn
  {
    var sent := FrameSends(c, s, now, events);
    FrameSendsOurs(c, s, now, events, sent);
    KeyLevelOfFrame(c, sent, key);
    SwitchLevelOfFrame(c, sent, s.pttOn);
  }

  ghost predicate Sorted(q: seq<Entry>) {
    |q| < 2 || (q[0].due <= q[1].due && Sorted(q[1..]))
  }

  lemma {:induction false} SortedHead(q: seq<Entry>, k: nat)
    requires Sorted(q) && k < |q|
    ensures q[0].due <= q[k].due
  {
    if k > 0 {
      SortedHead(q[1..], k - 1);
    }
  }

  lemma {:induction false} SortedDrop(q: seq<Entry>, n: nat)
    requires Sorted(q) && n <= |q|
    ensures Sorted(q[n..])
  {
    if n > 0 {
      SortedDrop(q[1..], n - 1);
      assert q[1..][n - 1..] == q[n..];
    } else {
      assert q[0..] == q;
    }
  }

  lemma {:induction false} SortedAppend(q: seq<Entry>, last: seq<Entry>, due: nat)
    requires Sorted(q) && forall k :: 0 <= k < |q| ==> q[k].due <= due
    requires forall k :: 0 <= k < |last| ==> last[k].due == due
    ensures Sorted(q + last)
  {
    if q == [] {
      if last != [] {
        SortedAppend([], last[1..], due);
        assert [] + last[1..] == last[1..];
      }
      assert q + last == last;
    } else {
      SortedAppend(q[1..], last, due);
      assert (q + last)[1..] == q[1..] + last;
    }
  }

  /** Dues run from now to before `end`, in order. */
  ghost predicate InOrder(q: seq<Entry>, now: nat, end: nat) {
    Sorted(q) && forall k :: 0 <= k < |q| ==> now <= q[k].due < end
  }

  /** A key-down still waiting has the switch on, with the key on or enough hang to reach it. */
  ghost predicate Held(s: Ptt, e: Entry, now: nat) {
    s.pttOn && (s.keyOn || s.hangCount >= e.due - now + 1)
  }

  ghost predicate Safe(s: Ptt, now: nat, end: nat, key: bool) {
    && InOrder(s.queue, now, end)
    && (key ==> s.keyOn) && (s.keyOn ==> s.pttOn)
    && (forall k :: 0 <= k < |s.queue| && IsOn(s.queue[k].midi) ==> Held(s, s.queue[k], now))
  }

  lemma TakeInSafe(c: Config, s: Ptt, now: nat, events: seq<Message>, key: bool)
    requires Safe(s, now, now + c.delay, key)
    ensures Safe(TakeIn(c, s, now, events), now, now + c.delay + 1, key)
  {
    var notes := Accepted(c, CAPACITY - |s.queue|, events);
    FirstOnIsOn(notes);
    SortedAppend(s.queue, Stamp(notes, now + c.delay), now + c.delay);
    var s1 := TakeIn(c, s, now, events);
    forall k | 0 <= k < |s1.queue| && IsOn(s1.queue[k].midi) ensures Held(s1, s1.queue[k], now) {
      if k < |s.queue| {
        assert s1.queue[k] == s.queue[k];
      } else {
        assert s1.queue[k].midi == notes[k - |s.queue|];
      }
    }
  }

  lemma LetOutSafe(c: Config, s: Ptt, now: nat, key: bool)
    requires c.delay == 0 || c.delay < c.hang
    requires Safe(s, now, now + c.delay + 1, key)
    ensures var s' := LetOut(c, s, now);
      var n := DueCount(s.queue, now);
      && Safe(s', now, now + c.delay + 1, KeyAfter(key, Notes(s.queue[..n])))
      && (s'.queue != [] ==> s'.queue[0].due > now)
  {
    var s' := LetOut(c, s, now);
    var n := DueCount(s.queue, now);
    var notes := Notes(s.queue[..n]);
    if n > 0 {
      assert notes[n - 1] == s.queue[n - 1].midi;
    }
    SortedDrop(s.queue, n);
    DueEndIs(s.queue, now, 0);
    forall k | 0 <= k < |s'.queue| && IsOn(s'.queue[k].midi) ensures Held(s', s'.queue[k], now) {
      assert s'.queue[k] == s.queue[n + k];
      assert Held(s, s.queue[n + k], now);
      SortedHead(s'.queue, k);
      if n > 0 && !s'.keyOn {
        assert s'.hangCount == c.hang;
      }
    }
  }

  lemma CountDownSafe(s: Ptt, now: nat, end: nat, key: bool)
    requires Safe(s, now, end, key) && (s.queue != [] ==> s.queue[0].due > now)
    ensures Safe(CountDown(s), now + 1, end, key)
  {
    var s' := CountDown(s);
    forall k | 0 <= k < |s'.queue| ensures now + 1 <= s'.queue[k].due {
      SortedHead(s.queue, k);
    }
    forall k | 0 <= k < |s'.queue| && IsOn(s'.queue[k].midi) ensures Held(s', s'.queue[k], now + 1) {
      assert Held(s, s.queue[k], now);
    }
  }

  lemma FrameSafe(c: Config, s: Ptt, now: nat, events: seq<Message>, key: bool)
    requires c.delay == 0 || c.delay < c.hang
    requires Safe(s, now, now + c.delay, key)
    ensures var key' := KeyAfter(key, FrameSends(c, s, now, events).notes);
      Safe(Frame(c, s, now, events), now + 1, now + 1 + c.delay, key')
  {
    TakeInSafe(c, s, now, events, key);
    var s1 := TakeIn(c, s, now, events);
    LetOutSafe(c, s1, now, key);
    var s2 := LetOut(c, s1, now);
    CountDownSafe(s2, now, now + c.delay + 1, KeyAfter(key, Notes(s1.queue[..DueCount(s1.queue, now)])));
  }

  lemma {:induction false} KeepIsPrefix(m: seq<Message>, room: int)
    ensures Keep(m, room) <= m
  {
    if m != [] && |m| > room {
      KeepIsPrefix(m[..|m| - 1], room);
    }
  }

  lemma FrameMatches(c: Config, s: Ptt, now: nat, events: seq<Message>)
    requires QueueMatches(c, s.queue)
    ensures QueueMatches(c, TakeIn(c, s, now, events).queue)
    ensures QueueMatches(c, Frame(c, s, now, events).queue)
  {
    AcceptedMatch(c, CAPACITY - |s.queue|, events);
    QueueGrows(c, s.queue, Accepted(c, CAPACITY - |s.queue|, events), now + c.delay);
    LetOutMatches(c, TakeIn(c, s, now, events), now);
  }

  lemma AcceptedMatch(c: Config, room: int, events: seq<Message>)
    ensures forall k :: 0 <= k < |Accepted(c, room, events)| ==> Matches(c, Accepted(c, room, events)[k])
  {
    OursIsMatching(c, events);
    FilterIdempotent(c, events);
    KeepIsPrefix(Ours(c, events), room);
    PrefixMatches(c, Ours(c, events), Accepted(c, room, events));
  }

  lemma LetOutMatches(c: Config, s: Ptt, now: nat)
    requires QueueMatches(c, s.queue)
    ensures QueueMatches(c, CountDown(LetOut(c, s, now)).queue)
  {
    QueueShrinks(c, s.queue, DueCount(s.queue, now));
  }

  lemma PrefixMatches(c: Config, notes: seq<Message>, kept: seq<Message>)
    requires kept <= notes && forall m :: m in notes ==> Matches(c, m)
    ensures forall k :: 0 <= k < |kept| ==> Matches(c, kept[k])
  {
    forall k | 0 <= k < |kept| ensures Matches(c, kept[k]) {
      assert kept[k] == notes[k];
    }
  }

  lemma QueueGrows(c: Config, q: seq<Entry>, notes: seq<Message>, due: nat)
    requires QueueMatches(c, q) && forall k :: 0 <= k < |notes| ==> Matches(c, notes[k])
    ensures QueueMatches(c, q + Stamp(notes, due))
  {
  }

  lemma QueueShrinks(c: Config, q: seq<Entry>, n: nat)
    requires QueueMatches(c, q) && n <= |q|
    ensures QueueMatches(c, q[n..])
  {
  }

  // ---- the levels heard outside are the levels kept inside ----

  ghost predicate Heard(c: Config, s: Ptt, on: bool) {
    QueueMatches(c, s.queue) && on == s.pttOn
  }

  lemma FrameHeard(c: Config, s: Ptt, now: nat, events: seq<Message>, s': Ptt, out: seq<Message>, key: bool, on: bool)
    requires Steps(c, s, now, events, s', out) && Heard(c, s, on)
    ensures Heard(c, s', LevelAfter(c, c.note + 1, on, out))
    ensures LevelAfter(c, c.note, key, out) == KeyAfter(key, FrameSends(c, s, now, events).notes)
  {
    FrameMatches(c, s, now, events);
    LevelsOfFrame(c, s, now, events, key);
  }

  lemma RestHeard(c: Config, s: Ptt)
    requires s == AT_REST
    ensures Heard(c, s, false)
  {
  }

  lemma StepHeard(c: Config, frame: nat, inputs: seq<seq<Message>>, states: seq<Ptt>, outs: seq<seq<Message>>,
                  k: nat, on: bool)
    requires StepAt(c, frame, inputs, states, outs, k) && Heard(c, states[k], on)
    ensures Heard(c, states[k + 1], LevelAfter(c, c.note + 1, on, outs[k]))
  {
    FrameHeard(c, states[k], frame + k, inputs[k], states[k + 1], outs[k], false, on);
  }

  lemma {:induction false} RunHeard(c: Config, frame: nat, inputs: seq<seq<Message>>, states: seq<Ptt>,
                                    outs: seq<seq<Message>>, k: nat)
    requires RestRun(c, frame, inputs, states, outs) && k <= |inputs|
    ensures Heard(c, states[k], LevelAt(c, c.note + 1, outs, k))
  {
    if k == 0 {
      RestHeard(c, states[0]);
    } else {
      RunHeard(c, frame, inputs, states, outs, k - 1);
      StepHeard(c, frame, inputs, states, outs, k - 1, LevelAt(c, c.note + 1, outs, k - 1));
    }
  }

  // ---- a hang longer than the delay covers every run ----

  ghost predicate Sound(c: Config, s: Ptt, now: nat, key: bool, on: bool) {
    Heard(c, s, on) && Safe(s, now, now + c.delay, key)
  }

  lemma FrameSound(c: Config, s: Ptt, now: nat, events: seq<Message>, s': Ptt, out: seq<Message>, key: bool, on: bool)
    requires c.delay == 0 || c.delay < c.hang
    requires Sound(c, s, now, key, on) && s' == Frame(c, s, now, events) && out == All(FrameSends(c, s, now, events))
    ensures Sound(c, s', now + 1, LevelAfter(c, c.note, key, out), LevelAfter(c, c.note + 1, on, out))
  {
    FrameMatches(c, s, now, events);
    FrameSafe(c, s, now, events, key);
    LevelsOfFrame(c, s, now, events, key);
  }

  lemma StepSound(c: Config, frame: nat, inputs: seq<seq<Message>>, states: seq<Ptt>, outs: seq<seq<Message>>,
                  k: nat, key: bool, on: bool)
    requires c.delay == 0 || c.delay < c.hang
    requires |states| == |inputs| + 1 && |outs| == |inputs| && k < |inputs| && StepAt(c, frame, inputs, states, outs, k)
    requires Sound(c, states[k], frame + k, key, on)
    ensures Sound(c, states[k + 1], frame + k + 1,
                  LevelAfter(c, c.note, key, outs[k]), LevelAfter(c, c.note + 1, on, outs[k]))
  {
    var now := frame + k;
    assert Steps(c, states[k], now, inputs[k], states[k + 1], outs[k]);
    FrameSound(c, states[k], now, inputs[k], states[k + 1], outs[k], key, on);
  }

  lemma RestSound(c: Config, s: Ptt, now: nat)
    requires s == AT_REST
    ensures Sound(c, s, now, false, false)
  {
  }

  lemma OneSound(c: Config, frame: nat, inputs: seq<seq<Message>>, states: seq<Ptt>, outs: seq<seq<Message>>, k: nat,
                 key: bool, on: bool)
    requires c.delay == 0 || c.delay < c.hang
    requires IsRun(c, frame, inputs, states, outs) && k < |inputs| && Sound(c, states[k], frame + k, key, on)
    ensures Sound(c, states[k + 1], frame + k + 1,
                  LevelAfter(c, c.note, key, outs[k]), LevelAfter(c, c.note + 1, on, outs[k]))
  {
    assert StepAt(c, frame, inputs, states, outs, k);
    StepSound(c, frame, inputs, states, outs, k, key, on);
  }

  lemma {:induction false} RunSound(c: Config, frame: nat, inputs: seq<seq<Message>>, states: seq<Ptt>,
                                    outs: seq<seq<Message>>, k: nat)
    requires c.delay == 0 || c.delay < c.hang
    requires RestRun(c, frame, inputs, states, outs) && k <= |inputs|
    ensures Sound(c, states[k], frame + k, LevelAt(c, c.note, outs, k), LevelAt(c, c.note + 1, outs, k))
  {
    if k == 0 {
      RestSound(c, states[0], frame);
    } else {
      RunSound(c, frame, inputs, states, outs, k - 1);
      OneSound(c, frame, inputs, states, outs, k - 1,
               LevelAt(c, c.note, outs, k - 1), LevelAt(c, c.note + 1, outs, k - 1));
    }
  }

  lemma CoversWhenHangOutlastsDelay(c: Config)
    requires c.delay == 0 || c.delay < c.hang
    ensures AlwaysCovered(c)
  {
    forall frame: nat, inputs, states, outs | RestRun(c, frame, inputs, states, outs) ensures Covered(c, outs) {
      forall k | 0 <= k <= |outs| && LevelAt(c, c.note, outs, k) ensures LevelAt(c, c.note + 1, outs, k) {
        RunSound(c, frame, inputs, states, outs, k);
      }
    }
  }

  // ---- quiet frames, and the end of the hang time ----

  /** A frame with nothing for us in it and nothing due. */
  lemma QuietFrame(c: Config, s: Ptt, now: nat, events: seq<Message>)
    requires Ours(c, events) == [] && (s.queue != [] ==> s.queue[0].due != now)
    ensures Frame(c, s, now, events) == CountDown(s)
    ensures FrameSends(c, s, now, events).notes == []
  {
    assert Stamp([], now + c.delay) == [];
    assert s.queue + [] == s.queue && s.queue[0..] == s.queue;
    assert Notes(s.queue[..0]) == [];
  }

  /** n frames into a quiet stretch that began with hang count h and the key up. */
  ghost predicate Hanging(s: Ptt, queue: seq<Entry>, h: int, n: nat) {
    && !s.keyOn && s.queue == queue
    && (s.pttOn <==> h - n > 0) && (s.pttOn ==> s.hangCount == h - n)
  }

  lemma HangStep(c: Config, frame: nat, inputs: seq<seq<Message>>, states: seq<Ptt>, outs: seq<seq<Message>>, k: nat,
                 queue: seq<Entry>, h: int, n: nat)
    requires IsRun(c, frame, inputs, states, outs) && k < |inputs|
    requires Ours(c, inputs[k]) == [] && (queue != [] ==> queue[0].due != frame + k)
    requires Hanging(states[k], queue, h, n)
    ensures Hanging(states[k + 1], queue, h, n + 1)
  {
    RunStep(c, frame, inputs, states, outs, k);
    QuietFrame(c, states[k], frame + k, inputs[k]);
  }

  lemma {:induction false} HangRun(c: Config, frame: nat, inputs: seq<seq<Message>>, states: seq<Ptt>,
                                   outs: seq<seq<Message>>, k: nat, queue: seq<Entry>, h: int, n: nat)
    requires IsRun(c, frame, inputs, states, outs) && k + n <= |inputs|
    requires forall g :: k <= g < k + n ==> Ours(c, inputs[g]) == []
    requires queue != [] ==> frame + k + n <= queue[0].due
    requires Hanging(states[k], queue, h, 0)
    ensures Hanging(states[k + n], queue, h, n)
  {
    if n > 0 {
      HangRun(c, frame, inputs, states, outs, k, queue, h, n - 1);
      HangStep(c, frame, inputs, states, outs, k + n - 1, queue, h, n - 1);
    }
  }

  lemma {:induction false} NothingPending(c: Config, frame: nat, inputs: seq<seq<Message>>, lo: nat, hi: nat)
    requires lo <= hi <= |inputs| && forall g :: lo <= g < hi ==> Ours(c, inputs[g]) == []
    ensures Pending(c, frame, inputs, lo, hi) == []
  {
    if lo < hi {
      NothingPending(c, frame, inputs, lo, hi - 1);
    }
  }

  lemma KeyUpStartsHang(c: Config, s: Ptt, now: nat, events: seq<Message>, notes: seq<Message>)
    requires s.pttOn && notes == FrameSends(c, s, now, events).notes
    requires notes != [] && !IsOn(notes[|notes| - 1])
    ensures var s' := Frame(c, s, now, events); Hanging(s', s'.queue, c.hang - 1, 0)
  {
    assert HangAfter(c, TakeIn(c, s, now, events).hangCount, notes) == c.hang;
  }

  /** The last key-up has gone out, so the key is up and the hang count has had its first count. */
  lemma LastKeyUp(c: Config, frame: nat, inputs: seq<seq<Message>>, states: seq<Ptt>, outs: seq<seq<Message>>, t: nat)
    requires IsRun(c, frame, inputs, states, outs) && Fits(c, inputs) && t < |inputs| && states[t].pttOn
    requires states[t].queue == Pending(c, frame, inputs, WindowStart(c, t), t)
    requires var last := Delayed(c, inputs, t); last != [] && !IsOn(last[|last| - 1])
    ensures Hanging(states[t + 1], states[t + 1].queue, c.hang - 1, 0)
  {
    PendingSize(c, frame, inputs, WindowStart(c, t), t + 1);
    DelayStep(c, frame, inputs, t, states[t]);
    LastNoteOut(c, frame, inputs, states, outs, t, Delayed(c, inputs, t));
  }

  lemma LastNoteOut(c: Config, frame: nat, inputs: seq<seq<Message>>, states: seq<Ptt>, outs: seq<seq<Message>>, t: nat,
                    notes: seq<Message>)
    requires IsRun(c, frame, inputs, states, outs) && t < |inputs| && states[t].pttOn
    requires notes == FrameSends(c, states[t], frame + t, inputs[t]).notes && notes != [] && !IsOn(notes[|notes| - 1])
    ensures Hanging(states[t + 1], states[t + 1].queue, c.hang - 1, 0)
  {
    KeyUpStartsHang(c, states[t], frame + t, inputs[t], notes);
    RunStep(c, frame, inputs, states, outs, t);
  }

  /**
   If the last delayed key-up goes out at frame t with the switch on, and nothing more is received, the
   switch is still on n frames later exactly as long as n + 1 is less than the hang time.
   */
  lemma SwitchDropsAfterHang(c: Config, frame: nat, inputs: seq<seq<Message>>, states: seq<Ptt>,
                             outs: seq<seq<Message>>, t: nat, n: nat)
    requires RestRun(c, frame, inputs, states, outs) && Fits(c, inputs) && t + 1 + n <= |inputs|
    requires LevelAt(c, c.note + 1, outs, t)
    requires var last := Delayed(c, inputs, t); last != [] && !IsOn(last[|last| - 1])
    requires forall g :: WindowStart(c, t + 1) <= g < t + 1 + n ==> Ours(c, inputs[g]) == []
    ensures LevelAt(c, c.note + 1, outs, t + 1 + n) <==> n + 1 < c.hang
  {
    assert Hanging(states[t + 1], [], c.hang - 1, 0) by {
      RunHeard(c, frame, inputs, states, outs, t);
      QueueIsPending(c, frame, inputs, states, outs, t);
      QueueIsPending(c, frame, inputs, states, outs, t + 1);
      NothingPending(c, frame, inputs, WindowStart(c, t + 1), t + 1);
      LastKeyUp(c, frame, inputs, states, outs, t);
    }
    HangRun(c, frame, inputs, states, outs, t + 1, [], c.hang - 1, n);
    RunHeard(c, frame, inputs, states, outs, t + 1 + n);
  }

  // ---- a hang no longer than the delay fails ----

  function Down(c: Config): Message { Short(NOTE_ON, c.chan, c.note, 1) }
  function Up(c: Config): Message { Short(NOTE_OFF, c.chan, c.note, 0) }

  /** A dot, and a second key-down just as the dot's delayed key-up goes out. */
  function Tail(c: Config, k: nat): seq<Message> {
    if k == 0 then [Down(c), Up(c)] else if k == c.delay then [Down(c)] else []
  }

  function TooLate(c: Config): (inputs: seq<seq<Message>>)
    ensures |inputs| == 2 * c.delay + 1 && forall k :: 0 <= k < |inputs| ==> inputs[k] == Tail(c, k)
  {
    seq(2 * c.delay + 1, k requires 0 <= k => Tail(c, k))
  }

  /** A run can always go on. */
  lemma RunGoesOn(c: Config, frame: nat, inputs: seq<seq<Message>>, states: seq<Ptt>, outs: seq<seq<Message>>,
                  events: seq<Message>, s: Ptt, out: seq<Message>)
    requires IsRun(c, frame, inputs, states, outs)
    requires Steps(c, states[|inputs|], frame + |inputs|, events, s, out)
    ensures IsRun(c, frame, inputs + [events], states + [s], outs + [out])
  {
    forall k | 0 <= k <= |inputs| ensures StepAt(c, frame, inputs + [events], states + [s], outs + [out], k) {
      assert k < |inputs| ==> StepAt(c, frame, inputs, states, outs, k);
    }
  }

  lemma {:induction false} RunExists(c: Config, frame: nat, inputs: seq<seq<Message>>)
    returns (states: seq<Ptt>, outs: seq<seq<Message>>)
    ensures RestRun(c, frame, inputs, states, outs)
  {
    if inputs == [] {
      states, outs := [AT_REST], [];
    } else {
      var n := |inputs| - 1;
      states, outs := RunExists(c, frame, inputs[..n]);
      var s := Frame(c, states[n], frame + n, inputs[n]);
      var out := All(FrameSends(c, states[n], frame + n, inputs[n]));
      RunGoesOn(c, frame, inputs[..n], states, outs, inputs[n], s, out);
      assert inputs == inputs[..n] + [inputs[n]];
      states, outs := states + [s], outs + [out];
    }
  }

  lemma TakeOne(c: Config, s: Ptt, now: nat, m: Message)
    requires Matches(c, m) && |s.queue| < CAPACITY
    ensures TakeIn(c, s, now, [m]) ==
      s.(keyOn := s.keyOn || IsOn(m), pttOn := s.pttOn || IsOn(m), queue := s.queue + [Entry(now + c.delay, m)])
  {
    TakeInOneMore(c, s, now, [], m);
    assert [] + [m] == [m];
    assert Stamp([], now + c.delay) == [] && s.queue + [] == s.queue;
  }

  lemma TakeTwo(c: Config, s: Ptt, now: nat, a: Message, b: Message)
    requires Matches(c, a) && Matches(c, b) && |s.queue| + 1 < CAPACITY
    ensures TakeIn(c, s, now, [a, b]) == TakeIn(c, TakeIn(c, s, now, [a]), now, [b])
  {
    TakeOne(c, s, now, a);
    TakeInOneMore(c, s, now, [a], b);
    TakeOne(c, TakeIn(c, s, now, [a]), now, b);
    assert [a] + [b] == [a, b];
  }

  /** Frame 0: both notes of the dot are queued. */
  lemma DotQueued(c: Config)
    requires 0 < c.delay
    ensures Frame(c, AT_REST, 0, [Down(c), Up(c)]) ==
      Ptt(true, true, 0, [Entry(c.delay, Down(c)), Entry(c.delay, Up(c))])
  {
    TakeTwo(c, AT_REST, 0, Down(c), Up(c));
    TakeOne(c, AT_REST, 0, Down(c));
    var s1 := TakeIn(c, AT_REST, 0, [Down(c)]);
    TakeOne(c, s1, 0, Up(c));
    var s2 := TakeIn(c, AT_REST, 0, [Down(c), Up(c)]);
    assert s2.queue == [Entry(c.delay, Down(c)), Entry(c.delay, Up(c))];
    assert DueCount(s2.queue, 0) == 0;
    assert s2.queue[0..] == s2.queue && Notes(s2.queue[..0]) == [];
  }

  /** Frame delay: the dot goes out and the second key-down is queued behind it. */
  lemma DotReleased(c: Config)
    requires 0 < c.delay
    ensures var s := Ptt(true, true, 0, [Entry(c.delay, Down(c)), Entry(c.delay, Up(c))]);
      Frame(c, s, c.delay, [Down(c)]) ==
        Ptt(false, c.hang - 1 > 0, c.hang - 1, [Entry(2 * c.delay, Down(c))])
  {
    var s := Ptt(true, true, 0, [Entry(c.delay, Down(c)), Entry(c.delay, Up(c))]);
    TakeOne(c, s, c.delay, Down(c));
    var s1 := TakeIn(c, s, c.delay, [Down(c)]);
    var rest := [Entry(2 * c.delay, Down(c))];
    assert s1.queue == s.queue + rest;
    ReleaseFront(s.queue, rest, c.delay);
    var notes := Notes(s.queue);
    assert notes == [Down(c), Up(c)];
    assert !IsOn(notes[1]);
  }

  /** Frame 2*delay: the second key-down goes out with the switch off. */
  lemma LateKeyDown(c: Config, s: Ptt, now: nat)
    requires s.queue == [Entry(now, Down(c))] && !s.pttOn
    ensures FrameSends(c, s, now, []).notes == [Down(c)] && !Frame(c, s, now, []).pttOn
  {
    assert Stamp([], now + c.delay) == [] && s.queue + [] == s.queue;
    ReleaseFront(s.queue, [], now);
    assert s.queue + [] == s.queue;
    assert Notes(s.queue) == [Down(c)];
  }

  lemma LateIsHeard(c: Config, s: Ptt, now: nat, s': Ptt, out: seq<Message>, key: bool, on: bool)
    requires s.queue == [Entry(now, Down(c))] && !s.pttOn && Heard(c, s, on) && Steps(c, s, now, [], s', out)
    ensures LevelAfter(c, c.note, key, out) && !LevelAfter(c, c.note + 1, on, out)
  {
    LateKeyDown(c, s, now);
    FrameHeard(c, s, now, [], s', out, key, on);
    assert [Down(c)][..0] == [];
  }

  lemma {:induction false} DotWaits(c: Config, states: seq<Ptt>, outs: seq<seq<Message>>, k: nat)
    requires 0 < k <= c.delay && RestRun(c, 0, TooLate(c), states, outs)
    ensures states[k] == Ptt(true, true, 0, [Entry(c.delay, Down(c)), Entry(c.delay, Up(c))])
  {
    RunStep(c, 0, TooLate(c), states, outs, k - 1);
    if k == 1 {
      DotQueued(c);
    } else {
      DotWaits(c, states, outs, k - 1);
      QuietFrame(c, states[k - 1], k - 1, []);
    }
  }

  lemma AfterTheDot(c: Config, states: seq<Ptt>, outs: seq<seq<Message>>)
    requires 0 < c.delay && RestRun(c, 0, TooLate(c), states, outs)
    ensures Hanging(states[c.delay + 1], [Entry(2 * c.delay, Down(c))], c.hang - 1, 0)
  {
    DotWaits(c, states, outs, c.delay);
    DotReleased(c);
    RunStep(c, 0, TooLate(c), states, outs, c.delay);
  }

  lemma OffBeforeLate(c: Config, inputs: seq<seq<Message>>, states: seq<Ptt>, outs: seq<seq<Message>>)
    requires 0 < c.delay && c.hang <= c.delay && inputs == TooLate(c) && RestRun(c, 0, inputs, states, outs)
    ensures states[2 * c.delay].queue == [Entry(2 * c.delay, Down(c))] && !states[2 * c.delay].pttOn
  {
    var d := c.delay;
    AfterTheDot(c, states, outs);
    assert forall g :: d + 1 <= g < 2 * d ==> Ours(c, inputs[g]) == [];
    HangRun(c, 0, inputs, states, outs, d + 1, [Entry(2 * d, Down(c))], c.hang - 1, d - 1);
  }

  lemma LateIsUncovered(c: Config, inputs: seq<seq<Message>>, states: seq<Ptt>, outs: seq<seq<Message>>, now: nat)
    requires RestRun(c, 0, inputs, states, outs) && now < |inputs| && inputs[now] == []
    requires states[now].queue == [Entry(now, Down(c))] && !states[now].pttOn
    ensures !Covered(c, outs)
  {
    RunHeard(c, 0, inputs, states, outs, now);
    RunStep(c, 0, inputs, states, outs, now);
    var key, on := LevelAt(c, c.note, outs, now), LevelAt(c, c.note + 1, outs, now);
    LateIsHeard(c, states[now], now, states[now + 1], outs[now], key, on);
    assert LevelAt(c, c.note, outs, now + 1) && !LevelAt(c, c.note + 1, outs, now + 1);
  }

  /** With 0 < delay and hang <= delay the second key-down of TooLate goes out uncovered. */
  lemma UncoveredWhenHangTooShort(c: Config)
    requires 0 < c.delay && c.hang <= c.delay
    ensures !AlwaysCovered(c)
  {
    var inputs := TooLate(c);
    var states, outs := RunExists(c, 0, inputs);
    OffBeforeLate(c, inputs, states, outs);
    LateIsUncovered(c, inputs, states, outs, 2 * c.delay);
  }

  /** The switch covers the key over every run exactly when there is no delay or the hang outlasts it. */
  lemma CoversIffHangOutlastsDelay(c: Config)
    ensures AlwaysCovered(c) <==> c.delay == 0 || c.delay < c.hang
  {
    if c.delay == 0 || c.delay < c.hang {
      CoversWhenHangOutlastsDelay(c);
    } else {
      UncoveredWhenHangTooShort(c);
    }
  }
}
