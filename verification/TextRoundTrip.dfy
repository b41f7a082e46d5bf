/**
 From text to text: what the keyboard keyer queues, scheduled by the process callback and heard by the
 detimer, reads back as the code of every letter with its letter and word spaces.
 */
module TextRoundTrip {
  import opened Morse
  import opened Keying
  import opened RingArithmetic
  import opened MidiRecords
  import opened MidiSchedule
  import opened MorseText
  import opened TextScript
  import opened Detime
  import opened DetimeDecode

  /** What sdrtcl/keyer_detime.c makes of a MIDI event: key-down or key-up if it is the keyed note. */
  function EventEdge(v: Voice, payload: seq<Byte>): Edge {
    if |payload| == 3 && payload[0] == NOTE_ON + (v.chan - 1) && payload[1] == v.note
    then if payload[2] > 0 then KeyDown else KeyUp
    else Quiet
  }

  lemma ItemEvent(t: Timing, v: Voice, i: Item)
    requires !v.two
    ensures EventEdge(v, RecordOf(t, v, i).payload) == ItemEdge(i)
  {
  }

  /** The key line of the frames from `start` on, told from the times at which the records fired. */
  ghost predicate IsLine(line: seq<Edge>, start: nat, rs: seq<Record>, times: seq<nat>, v: Voice) {
    && |times| <= |rs|
    && (forall i :: 0 <= i < |times| ==> EventHeard(line, start, rs, times, v, i))
    && (forall f :: 0 <= f < |line| ==> QuietUnlessFired(line, start, times, f))
  }

  ghost predicate EventHeard(line: seq<Edge>, start: nat, rs: seq<Record>, times: seq<nat>, v: Voice, i: nat)
    requires i < |times| <= |rs|
  {
    start <= times[i] < start + |line| ==> line[times[i] - start] == EventEdge(v, rs[i].payload)
  }

  ghost predicate QuietUnlessFired(line: seq<Edge>, start: nat, times: seq<nat>, f: nat)
    requires f < |line|
  {
    start + f !in times ==> line[f] == Quiet
  }

  lemma {:induction false} LineLength(t: Timing, v: Voice, items: seq<Item>)
    ensures |Line(t, items)| == Elapsed(Records(t, v, items), |items|)
  {
    if items != [] {
      var n := |items| - 1;
      LineLength(t, v, items[..n]);
      ElapsedPrefix(t, v, items, n);
    }
  }

  lemma ElapsedPrefix(t: Timing, v: Voice, items: seq<Item>, n: nat)
    requires n < |items|
    ensures var rs := Records(t, v, items);
      && Elapsed(rs, n) == Elapsed(Records(t, v, items[..n]), n)
      && rs[n].duration == Duration(t, items[n])
  {
    RecordsConcat(t, v, items[..n], items[n..]);
    assert items == items[..n] + items[n..];
    SameElapsed(Records(t, v, items), Records(t, v, items[..n]), n);
    RecordsAt(t, v, items, n);
  }

  lemma {:induction false} SameElapsed(a: seq<Record>, b: seq<Record>, n: nat)
    requires n <= |a| && n <= |b| && a[..n] == b[..n]
    ensures Elapsed(a, n) == Elapsed(b, n)
  {
    if n > 0 {
      assert a[..n - 1] == a[..n][..n - 1] && b[..n - 1] == b[..n][..n - 1];
      assert a[n - 1] == a[..n][n - 1] && b[n - 1] == b[..n][n - 1];
      SameElapsed(a, b, n - 1);
    }
  }

  /** Each item's edge is at the sum of the durations before it. */
  lemma {:induction false} LineAt(t: Timing, v: Voice, items: seq<Item>, i: nat)
    requires i < |items| && 0 < Duration(t, items[i])
    ensures var at := Elapsed(Records(t, v, items), i);
      at < |Line(t, items)| && Line(t, items)[at] == ItemEdge(items[i])
  {
    LineLength(t, v, items[..i]);
    ElapsedPrefix(t, v, items, i);
    assert items == items[..i] + items[i..];
    LineConcat(t, items[..i], items[i..]);
    assert items[i..][0] == items[i];
    LineStart(t, items[i..]);
    FirstBehind(Line(t, items[..i]), Line(t, items[i..]));
  }

  lemma FirstBehind(a: seq<Edge>, b: seq<Edge>)
    requires b != []
    ensures |a| < |a + b| && (a + b)[|a|] == b[0]
  {
  }

  lemma {:induction false} LineStart(t: Timing, items: seq<Item>)
    requires items != [] && 0 < Duration(t, items[0])
    ensures Line(t, items) != [] && Line(t, items)[0] == ItemEdge(items[0])
  {
    if |items| > 1 {
      LineStart(t, items[..|items| - 1]);
    } else {
      assert items[..0] == [];
    }
  }

  /** Everywhere else the line is quiet. */
  lemma {:induction false} LineElsewhere(t: Timing, v: Voice, items: seq<Item>, f: nat)
    requires f < |Line(t, items)|
    requires forall i :: 0 <= i < |items| ==> Elapsed(Records(t, v, items), i) != f
    ensures Line(t, items)[f] == Quiet
  {
    var n := |items| - 1;
    LineLength(t, v, items[..n]);
    ElapsedPrefix(t, v, items, n);
    if f < |Line(t, items[..n])| {
      forall i | 0 <= i < n ensures Elapsed(Records(t, v, items[..n]), i) != f {
        assert Records(t, v, items) == Records(t, v, items[..n]) + [RecordOf(t, v, items[n])];
        SameElapsed(Records(t, v, items), Records(t, v, items[..n]), i);
      }
      LineElsewhere(t, v, items[..n], f);
    } else {
      assert Elapsed(Records(t, v, items), n) != f;
    }
  }

  /** The frame of an event. */
  lemma EventFrame(t: Timing, v: Voice, items: seq<Item>, line: seq<Edge>, start: nat, base: nat,
                   times: seq<nat>, i: nat, f: nat)
    requires !v.two && start <= base && i < |items| && 0 < Duration(t, items[i])
    requires IsLine(line, start, Records(t, v, items), times, v) && f < |line|
    requires |times| == |items| && start + f == times[i] == OnTime(Records(t, v, items), base, i)
    ensures base - start <= f < base - start + |Line(t, items)|
    ensures line[f] == Line(t, items)[f - (base - start)]
  {
    LineAt(t, v, items, i);
    EventIs(t, v, items, line, start, times, i);
    assert f - (base - start) == Elapsed(Records(t, v, items), i);
  }

  lemma EventIs(t: Timing, v: Voice, items: seq<Item>, line: seq<Edge>, start: nat, times: seq<nat>, i: nat)
    requires !v.two && IsLine(line, start, Records(t, v, items), times, v)
    requires i < |times| && |times| == |items| && start <= times[i] < start + |line|
    ensures line[times[i] - start] == ItemEdge(items[i])
  {
    RecordsAt(t, v, items, i);
    ItemEvent(t, v, items[i]);
    assert EventHeard(line, start, Records(t, v, items), times, v, i);
  }

  /** Every other frame. */
  lemma QuietFrame(t: Timing, v: Voice, items: seq<Item>, start: nat, base: nat, times: seq<nat>, f: nat)
    requires start <= base && base - start <= f < base - start + |Line(t, items)|
    requires |times| == |items| && AllOnTime(Records(t, v, items), times, base)
    requires start + f !in times
    ensures Line(t, items)[f - (base - start)] == Quiet
  {
    var rs := Records(t, v, items);
    forall i | 0 <= i < |items| ensures Elapsed(rs, i) != f - (base - start) {
      assert times[i] == OnTime(rs, base, i);
    }
    LineElsewhere(t, v, items, f - (base - start));
  }

  lemma LineFrame(t: Timing, v: Voice, items: seq<Item>, line: seq<Edge>, start: nat, base: nat,
                  times: seq<nat>, f: nat)
    requires !v.two && start <= base && forall k :: 0 <= k < |items| ==> 0 < Duration(t, items[k])
    requires IsLine(line, start, Records(t, v, items), times, v)
    requires |times| == |items| && AllOnTime(Records(t, v, items), times, base)
    requires |line| == base - start + |Line(t, items)| && f < |line|
    ensures line[f] == WaitThen(base - start, Line(t, items), f)
  {
    if start + f in times {
      var i :| 0 <= i < |times| && times[i] == start + f;
      assert times[i] == OnTime(Records(t, v, items), base, i);
      EventFrame(t, v, items, line, start, base, times, i, f);
    } else {
      assert QuietUnlessFired(line, start, times, f);
      if base - start <= f {
        QuietFrame(t, v, items, start, base, times, f);
        assert Line(t, items)[f - (base - start)] == Quiet;
      }
    }
  }

  /** When no record is late, the key line is the line of the items after the wait for the first. */
  lemma OnTimeLine(t: Timing, v: Voice, items: seq<Item>, line: seq<Edge>, start: nat, base: nat, times: seq<nat>)
    requires !v.two && start <= base && forall k :: 0 <= k < |items| ==> 0 < Duration(t, items[k])
    requires IsLine(line, start, Records(t, v, items), times, v)
    requires |times| == |items| && AllOnTime(Records(t, v, items), times, base)
    requires |line| == base - start + Elapsed(Records(t, v, items), |items|)
    ensures line == Still(base - start) + Line(t, items)
  {
    LineLength(t, v, items);
    OnTimeFrames(t, v, items, line, start, base, times, base - start, Line(t, items));
  }

  lemma OnTimeFrames(t: Timing, v: Voice, items: seq<Item>, line: seq<Edge>, start: nat, base: nat, times: seq<nat>,
                     wait: nat, rest: seq<Edge>)
    requires !v.two && start <= base && forall k :: 0 <= k < |items| ==> 0 < Duration(t, items[k])
    requires IsLine(line, start, Records(t, v, items), times, v)
    requires |times| == |items| && AllOnTime(Records(t, v, items), times, base)
    requires wait == base - start && rest == Line(t, items) && |line| == wait + |rest|
    ensures line == Still(wait) + rest
  {
    forall f | 0 <= f < |line| ensures line[f] == WaitThen(wait, rest, f) {
      LineFrame(t, v, items, line, start, base, times, f);
    }
    SameEverywhere(line, wait, rest);
  }

  function WaitThen(wait: nat, rest: seq<Edge>, f: nat): Edge
    requires f < wait + |rest|
  {
    if f < wait then Quiet else rest[f - wait]
  }

  lemma SameEverywhere(line: seq<Edge>, wait: nat, rest: seq<Edge>)
    requires |line| == wait + |rest| && forall f :: 0 <= f < |line| ==> line[f] == WaitThen(wait, rest, f)
    ensures line == Still(wait) + rest
  {
  }

  /** The line heard from the first callback's start to the end of the last record, within the session. */
  ghost predicate Heard(s: MidiSchedule.Session, rs: seq<Record>, v: Voice, line: seq<Edge>)
    requires |s.cbs| == |s.fired| && |s.heads| > 0 && 0 < |s.cbs|
  {
    var start := s.cbs[0].start;
    && IsLine(line, start, rs, Times(s.fired, |s.cbs|), v)
    && start + |line| == OnTime(rs, BaseOf(s), |rs|)
    && start + |line| <= EndOf(s.cbs, |s.cbs|)
  }

  /** Over callbacks of any length: nothing starves, nothing is held up, and the last callback is not cut short. */
  ghost predicate Unhindered(s: MidiSchedule.Session) {
    Steady(s) && !CutShort(s, |s.cbs| - 1)
  }

  lemma AllFiredByEnd(s: MidiSchedule.Session, v: Voice, line: seq<Edge>)
    requires Unhindered(s) && Heard(s, MidiSchedule.All(s), v, line)
    requires forall k :: 0 <= k < |MidiSchedule.All(s)| ==> 0 < MidiSchedule.All(s)[k].duration
    ensures |Times(s.fired, |s.cbs|)| == |MidiSchedule.All(s)|
    ensures AllOnTime(MidiSchedule.All(s), Times(s.fired, |s.cbs|), BaseOf(s))
  {
    var rs := MidiSchedule.All(s);
    if rs != [] {
      assert OnTime(rs, 0, |rs|) == OnTime(rs, 0, |rs| - 1) + rs[|rs| - 1].duration;
    }
    AllFired(s);
  }

  lemma ItemsLast(t: Timing, v: Voice, items: seq<Item>, c: Setup)
    requires Suits(t, c)
    ensures forall k :: 0 <= k < |items| ==> 0 < Duration(t, items[k])
    ensures forall k :: 0 <= k < |items| ==> Records(t, v, items)[k].duration == Duration(t, items[k])
  {
    forall k | 0 <= k < |items|
      ensures 0 < Duration(t, items[k]) && Records(t, v, items)[k].duration == Duration(t, items[k])
    {
      RecordsAt(t, v, items, k);
    }
  }

  /** The key line of a session is the marks and gaps of the letters. */
  lemma TextIsKeyed(dict: Dict, groups: seq<string>, t: Timing, v: Voice, s: MidiSchedule.Session, line: seq<Edge>,
                    wait: nat, c: Setup)
    requires WellCoded(dict) && Sendable(dict, groups) && !v.two && Suits(t, c)
    requires Unhindered(s) && MidiSchedule.All(s) == Records(t, v, AllItems(dict, groups))
    requires Heard(s, MidiSchedule.All(s), v, line) && s.cbs[0].start + wait == BaseOf(s)
    ensures Coded(Read(dict, groups).letters)
    ensures line == Still(wait) + TapeEdges(ScriptTape(t, Read(dict, groups)))
  {
    var items := AllItems(dict, groups);
    ItemsLast(t, v, items, c);
    AllFiredByEnd(s, v, line);
    OnTimeLine(t, v, items, line, s.cbs[0].start, BaseOf(s), Times(s.fired, |s.cbs|));
    TextLine(dict, t, groups);
  }

  /**
   Every text round trips.  The items queued for it, published all at once or in any number of pieces, before or
   while others are sent, are scheduled by any callbacks, of any length, that are neither starved nor held up.  The
   detimer, hearing the key line this makes up to the end of the last record, writes the code of every letter and
   prosign with one space after it, or two where spaces follow.
   */
  lemma TextReadsBack(dict: Dict, text: string, t: Timing, v: Voice, s: MidiSchedule.Session, line: seq<Edge>,
                      script: Script, wait: nat, spd: nat, polled: nat -> bool, c: Setup)
    requires WellCoded(dict) && Sendable(dict, TypeAll(Typing("", 0), text).groups) && !v.two
    requires Suits(t, c) && PolledEvery(polled, c.period) && 2 * c.d - c.j <= 2 * spd <= 2 * c.d + c.j
    requires Unhindered(s) && MidiSchedule.All(s) == Records(t, v, ItemsOf(dict, Typing("", 0), text))
    requires Heard(s, MidiSchedule.All(s), v, line)
    requires script == Read(dict, TypeAll(Typing("", 0), text).groups)
    requires s.cbs[0].start + wait == BaseOf(s)
    ensures ReadsAs(line, script, wait, t, spd, polled, c)
  {
    TextIsKeyed(dict, TypeAll(Typing("", 0), text).groups, t, v, s, line, wait, c);
    ScriptDecodes(script, wait, line, t, spd, polled, c);
  }

  /** The items of one text after another are those of both together, so any number of puts count as one. */
  lemma PutsFollowOn(dict: Dict, s: Typing, a: string, b: string, t: Timing, v: Voice)
    ensures ItemsOf(dict, s, a + b) == ItemsOf(dict, s, a) + ItemsOf(dict, TypeAll(s, a).state, b)
    ensures Records(t, v, ItemsOf(dict, s, a + b)) ==
      Records(t, v, ItemsOf(dict, s, a)) + Records(t, v, ItemsOf(dict, TypeAll(s, a).state, b))
  {
    TypeAllConcat(s, a, b);
    AllItemsConcat(dict, TypeAll(s, a).groups, TypeAll(TypeAll(s, a).state, b).groups);
    RecordsConcat(t, v, ItemsOf(dict, s, a), ItemsOf(dict, TypeAll(s, a).state, b));
  }

  lemma ScriptDecodes(script: Script, wait: nat, line: seq<Edge>, t: Timing, spd: nat,
                      polled: nat -> bool, c: Setup)
    requires Coded(script.letters) && Suits(t, c) && line == Still(wait) + TapeEdges(ScriptTape(t, script))
    requires PolledEvery(polled, c.period) && 2 * c.d - c.j <= 2 * spd <= 2 * c.d + c.j
    ensures ReadsAs(line, script, wait, t, spd, polled, c)
  {
    LettersText(t, script.letters, c);
    TapeDecodes(ScriptTape(t, script), wait, line, spd, polled, c);
  }

  lemma TapeDecodes(tape: Tape, wait: nat, line: seq<Edge>, spd: nat, polled: nat -> bool, c: Setup)
    requires Workable(c) && AllLegible(tape.segs, c) && line == Still(wait) + TapeEdges(tape)
    requires PolledEvery(polled, c.period) && 2 * c.d - c.j <= 2 * spd <= 2 * c.d + c.j
    ensures HeardAs(Detime.Session(Configured(spd), ""), 0, line, polled,
                    Lead(wait + tape.lead, spd, polled) + Text(tape.segs, c), c)
  {
    LongerStill(wait, tape.lead, Wave(tape.segs));
    Decodes(spd, wait + tape.lead, tape.segs, polled, c);
  }

  /** A detimer configured with spd, hearing the line from its start, writes the expected text. */
  ghost predicate ReadsAs(line: seq<Edge>, script: Script, wait: nat, t: Timing, spd: nat, polled: nat -> bool,
                          c: Setup) {
    HeardAs(Detime.Session(Configured(spd), ""), 0, line, polled,
            Lead(wait + Pausing(t, script.lead), spd, polled) + Expected(script.letters), c)
  }

  lemma LongerStill(a: nat, b: nat, line: seq<Edge>)
    ensures Still(a) + (Still(b) + line) == Still(a + b) + line
  {
    assert Still(a + b) == Still(a) + Still(b);
  }

  /** The times of Recommendation ITU-R M.1677-1, 1:3 marks and 1:3:7 spaces, with a poll every d-1 frames. */
  lemma StandardTimesSuit(d: nat, t: Timing, v: Voice, items: seq<Item>)
    requires 2 <= d && t == Timing(d, 3 * d, d, 3 * d, 7 * d) && ValidTiming(t)
    ensures Suits(t, Setup(d, 0, d - 1))
    ensures AtLeast(Records(t, v, items), d)
  {
    forall k | 0 <= k < |items| ensures d <= Records(t, v, items)[k].duration {
      RecordsAt(t, v, items, k);
    }
  }
}
