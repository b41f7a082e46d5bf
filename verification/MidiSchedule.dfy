/** Runs of process callbacks over the record queue: when each record fires. */
module MidiSchedule {
  import opened MidiRecords

  /** What was published before a callback, and the frames of the callback. */
  datatype Callback = Callback(added: seq<Record>, start: nat, nframes: nat)

  /** The queue and head frame before each callback, and the times fired in it. */
  datatype Session = Session(cbs: seq<Callback>, queues: seq<seq<Record>>, heads: seq<nat>, fired: seq<seq<nat>>)

  ghost predicate CallbackAt(s: Session, k: nat) {
    && k < |s.cbs| && k + 1 < |s.queues| && k + 1 < |s.heads| && k < |s.fired|
    && var q, start := s.queues[k] + s.cbs[k].added, s.cbs[k].start;
       && IsBatch(q, s.fired[k], s.heads[k], start, start + s.cbs[k].nframes, s.heads[k + 1])
       && s.queues[k + 1] == q[|s.fired[k]|..]
  }

  ghost predicate IsSession(s: Session) {
    && |s.queues| == |s.heads| == |s.cbs| + 1 && |s.fired| == |s.cbs|
    && s.queues[0] == []
    && forall k :: 0 <= k < |s.cbs| ==> CallbackAt(s, k)
  }

  /** Everything published before the k-th callback, in order. */
  function Added(cbs: seq<Callback>, k: nat): seq<Record>
    requires k <= |cbs|
  {
    if k == 0 then [] else Added(cbs, k - 1) + cbs[k - 1].added
  }

  /** All the times fired in the first k callbacks. */
  function Times(fired: seq<seq<nat>>, k: nat): seq<nat>
    requires k <= |fired|
  {
    if k == 0 then [] else Times(fired, k - 1) + fired[k - 1]
  }

  /** For each of those times, the start of its callback. */
  function Starts(cbs: seq<Callback>, fired: seq<seq<nat>>, k: nat): (s: seq<nat>)
    requires k <= |cbs| == |fired|
    ensures |s| == |Times(fired, k)|
  {
    if k == 0 then [] else Starts(cbs, fired, k - 1) + seq(|fired[k - 1]|, _ => cbs[k - 1].start)
  }

  /** Record i fires when it is due, or at the start of its callback if that is later. */
  ghost predicate FiresByRule(rs: seq<Record>, times: seq<nat>, starts: seq<nat>, head: nat, i: nat) {
    && i < |times| == |starts| && |times| <= |rs|
    && times[i] == Later(DueAt(rs, times, head, i), starts[i])
  }

  ghost predicate AllByRule(rs: seq<Record>, times: seq<nat>, starts: seq<nat>, head: nat, next: nat) {
    && |times| == |starts| && |times| <= |rs|
    && (forall i :: 0 <= i < |times| ==> FiresByRule(rs, times, starts, head, i))
    && next == DueAt(rs, times, head, |times|)
  }

  /** Record k of a batch from the queue is record n+k of all. */
  lemma FiresLater(all: seq<Record>, times: seq<nat>, starts: seq<nat>, head: nat, n: nat, due: nat, more: seq<nat>,
                   start: nat, end: nat, k: nat)
    requires n <= |all| && Fires(all[n..], more, due, start, end, k)
    requires |times| == |starts| == n + |more| && times[n..] == more && starts[n + k] == start
    requires due == DueAt(all, times, head, n)
    ensures FiresByRule(all, times, starts, head, n + k)
  {
    assert times[n + k] == more[k];
    if k > 0 {
      assert times[n + k - 1] == more[k - 1] && all[n + k - 1] == all[n..][k - 1];
    }
  }

  /** One more batch after what has fired already. */
  lemma BatchExtends(rs: seq<Record>, times: seq<nat>, starts: seq<nat>, head: nat, due: nat, added: seq<Record>,
                     more: seq<nat>, start: nat, end: nat, due': nat)
    requires AllByRule(rs, times, starts, head, due)
    requires IsBatch(rs[|times|..] + added, more, due, start, end, due')
    ensures AllByRule(rs + added, times + more, starts + seq(|more|, _ => start), head, due')
  {
    var n, all, times', starts' := |times|, rs + added, times + more, starts + seq(|more|, _ => start);
    assert all[n..] == rs[n..] + added;
    forall i | 0 <= i < |times'| ensures FiresByRule(all, times', starts', head, i) {
      if i < n {
        assert FiresByRule(rs, times, starts, head, i);
      } else {
        FiresLater(all, times', starts', head, n, due, more, start, end, i - n);
      }
    }
  }

  lemma {:induction false} RunByRule(s: Session, k: nat)
    requires IsSession(s) && k <= |s.cbs|
    ensures AllByRule(Added(s.cbs, k), Times(s.fired, k), Starts(s.cbs, s.fired, k), s.heads[0], s.heads[k])
    ensures Added(s.cbs, k)[|Times(s.fired, k)|..] == s.queues[k]
  {
    if k > 0 {
      RunByRule(s, k - 1);
      assert CallbackAt(s, k - 1);
      var cb := s.cbs[k - 1];
      BatchExtends(Added(s.cbs, k - 1), Times(s.fired, k - 1), Starts(s.cbs, s.fired, k - 1), s.heads[0],
                   s.heads[k - 1], cb.added, s.fired[k - 1], cb.start, cb.start + cb.nframes, s.heads[k]);
      assert Added(s.cbs, k)[|Times(s.fired, k - 1)|..] == s.queues[k - 1] + cb.added;
    }
  }

  /**
   Over every session the records fire in the order they were published, none lost and none repeated, each at
   the later of the start of its callback and the time and duration of the one before it.
   */
  lemma RecordsFireInOrder(s: Session, k: nat, i: nat)
    requires IsSession(s) && k <= |s.cbs| && i < |Times(s.fired, k)|
    ensures |Times(s.fired, k)| <= |Added(s.cbs, k)|
    ensures Added(s.cbs, k)[|Times(s.fired, k)|..] == s.queues[k]
    ensures var times, rs, starts := Times(s.fired, k), Added(s.cbs, k), Starts(s.cbs, s.fired, k);
      times[i] == Later(if i == 0 then s.heads[0] else times[i - 1] + rs[i - 1].duration, starts[i])
  {
    RunByRule(s, k);
    assert FiresByRule(Added(s.cbs, k), Times(s.fired, k), Starts(s.cbs, s.fired, k), s.heads[0], i);
  }

  // ---- no record is late when callbacks are short enough ----

  ghost predicate AtLeast(rs: seq<Record>, m: nat) {
    forall k :: 0 <= k < |rs| ==> m <= rs[k].duration
  }

  function Elapsed(rs: seq<Record>, i: nat): nat
    requires i <= |rs|
  {
    if i == 0 then 0 else Elapsed(rs, i - 1) + rs[i - 1].duration
  }

  lemma {:induction false} ElapsedGrows(rs: seq<Record>, i: nat, j: nat)
    requires i <= j <= |rs|
    ensures Elapsed(rs, i) <= Elapsed(rs, j)
  {
    if i < j {
      ElapsedGrows(rs, i, j - 1);
    }
  }

  lemma {:induction false} SpacedOut(rs: seq<Record>, times: seq<nat>, head: nat, start: nat, end: nat, m: nat, k: nat)
    requires Firing(rs, times, head, start, end) && AtLeast(rs, m) && k < |times|
    ensures start + m * k <= times[k]
  {
    assert Fires(rs, times, head, start, end, k);
    if k > 0 {
      SpacedOut(rs, times, head, start, end, m, k - 1);
      assert m * k == m * (k - 1) + m;
    }
  }

  /**
   The cap of 64 events cuts nothing off in a callback of at most 64 times the shortest duration, since what comes
   after it is not due before the end; at 63 times it is not even reached.
   */
  lemma CapNotReached(rs: seq<Record>, times: seq<nat>, head: nat, start: nat, end: nat, m: nat)
    requires Firing(rs, times, head, start, end) && AtLeast(rs, m) && end <= start + 64 * m
    ensures |times| == MAX_EVENTS ==> end <= DueAt(rs, times, head, |times|)
    ensures |times| == MAX_EVENTS ==> start + 63 * m < end
  {
    if |times| == MAX_EVENTS {
      assert Fires(rs, times, head, start, end, 63);
      SpacedOut(rs, times, head, start, end, m, 62);
      SpacedOut(rs, times, head, start, end, m, 63);
    }
  }

  // ---- what makes a record late ----

  /** When the queue has run dry after some records, what is added next is there by the time it is due. */
  ghost predicate FedInTime(s: Session, k: nat)
    requires k < |s.cbs| && k < |s.queues| && k < |s.heads|
  {
    Added(s.cbs, k) != [] && s.queues[k] == [] && s.cbs[k].added != [] ==> s.cbs[k].start <= s.heads[k]
  }

  ghost predicate NeverStarved(s: Session)
    requires |s.queues| == |s.heads| == |s.cbs| + 1
  {
    forall k :: 0 <= k < |s.cbs| ==> FedInTime(s, k)
  }

  /** What a callback left in the queue is not due before the next callback starts. */
  ghost predicate ResumedInTime(s: Session, k: nat)
    requires k < |s.cbs| && k < |s.queues| && k < |s.heads|
  {
    s.queues[k] != [] ==> s.cbs[k].start <= s.heads[k]
  }

  ghost predicate NeverHeldUp(s: Session)
    requires |s.queues| == |s.heads| == |s.cbs| + 1
  {
    forall k :: 0 <= k < |s.cbs| ==> ResumedInTime(s, k)
  }

  /** Neither: over any callbacks, however long, and any records, of no duration too. */
  ghost predicate Steady(s: Session) {
    IsSession(s) && 0 < |s.cbs| && NeverStarved(s) && NeverHeldUp(s)
  }

  /** Callback k left behind a record that was due before its end. */
  ghost predicate CutShort(s: Session, k: nat)
    requires k < |s.cbs| && |s.queues| == |s.heads| == |s.cbs| + 1
  {
    s.queues[k + 1] != [] && s.heads[k + 1] < EndOf(s.cbs, k + 1)
  }

  /** Nothing but the cap cuts a callback short. */
  lemma OnlyCapCuts(s: Session, k: nat)
    requires IsSession(s) && k < |s.cbs| && CutShort(s, k)
    ensures |s.fired[k]| == MAX_EVENTS
  {
    assert CallbackAt(s, k);
  }

  ghost predicate Contiguous(cbs: seq<Callback>) {
    forall k :: 0 < k < |cbs| ==> cbs[k].start == EndOf(cbs, k)
  }

  /** Where callbacks follow on from one another, held up is just what a callback is after one that was cut short. */
  lemma HeldUpIffCut(s: Session)
    requires IsSession(s) && Contiguous(s.cbs)
    ensures NeverHeldUp(s) <==> forall k :: 0 <= k < |s.cbs| - 1 ==> !CutShort(s, k)
  {
    if forall k :: 0 <= k < |s.cbs| - 1 ==> !CutShort(s, k) {
      forall k | 0 <= k < |s.cbs| ensures ResumedInTime(s, k) {
        assert k > 0 ==> !CutShort(s, k - 1);
      }
    } else {
      var k :| 0 <= k < |s.cbs| - 1 && CutShort(s, k);
      assert !ResumedInTime(s, k + 1);
    }
  }

  /** A condition on the callbacks alone: none longer than 64 times the shortest duration. */
  ghost predicate ShortEnough(cbs: seq<Callback>, m: nat) {
    forall k :: 0 <= k < |cbs| ==> AtLeast(cbs[k].added, m) && cbs[k].nframes <= 64 * m
  }

  /** The cap then cuts nothing short, whatever is in the queue. */
  lemma ShortIsNotCut(s: Session, m: nat, k: nat)
    requires IsSession(s) && ShortEnough(s.cbs, m) && k < |s.cbs|
    ensures !CutShort(s, k)
  {
    assert CallbackAt(s, k);
    QueueIsRest(s, k);
    AddedAtLeast(s.cbs, m, k + 1);
    CapNotReached(s.queues[k] + s.cbs[k].added, s.fired[k], s.heads[k], s.cbs[k].start, EndOf(s.cbs, k + 1), m);
  }

  function EndOf(cbs: seq<Callback>, k: nat): nat
    requires 0 < k <= |cbs|
  {
    cbs[k - 1].start + cbs[k - 1].nframes
  }

  /** Everything ever published. */
  function All(s: Session): seq<Record> {
    Added(s.cbs, |s.cbs|)
  }

  /** The start of the first of k callbacks that finds a record, or of the last of them if none does. */
  function BeginsAt(cbs: seq<Callback>, k: nat): nat
    requires 0 < k <= |cbs|
  {
    if k > 1 && Added(cbs, k - 1) != [] then BeginsAt(cbs, k - 1) else cbs[k - 1].start
  }

  /** When the first record fires. */
  function BaseOf(s: Session): nat
    requires s.cbs != [] && s.heads != []
  {
    Later(s.heads[0], BeginsAt(s.cbs, |s.cbs|))
  }

  lemma {:induction false} AddedPrefix(cbs: seq<Callback>, j: nat, k: nat)
    requires j <= k <= |cbs|
    ensures Added(cbs, j) <= Added(cbs, k)
  {
    if j < k {
      AddedPrefix(cbs, j, k - 1);
    }
  }

  /** Once a record has been found, later callbacks do not change where it began. */
  lemma {:induction false} BeginsOnce(cbs: seq<Callback>, j: nat, k: nat)
    requires 0 < j <= k <= |cbs| && Added(cbs, j) != []
    ensures BeginsAt(cbs, k) == BeginsAt(cbs, j)
  {
    if j < k {
      BeginsOnce(cbs, j, k - 1);
      AddedPrefix(cbs, j, k - 1);
    }
  }

  lemma {:induction false} AddedAtLeast(cbs: seq<Callback>, m: nat, k: nat)
    requires ShortEnough(cbs, m) && k <= |cbs|
    ensures AtLeast(Added(cbs, k), m)
  {
    if k > 0 {
      AddedAtLeast(cbs, m, k - 1);
    }
  }

  /** What a callback takes its records from is what has been added and not fired. */
  lemma QueueIsRest(s: Session, k: nat)
    requires IsSession(s) && k < |s.cbs|
    ensures |Times(s.fired, k)| <= |Added(s.cbs, k)|
    ensures s.queues[k] + s.cbs[k].added == Added(s.cbs, k + 1)[|Times(s.fired, k)|..]
  {
    RunByRule(s, k);
  }

  /** Records that have been found but not fired are not due: nothing has moved the head. */
  lemma {:induction false} FoundNotFired(s: Session, k: nat)
    requires IsSession(s) && 0 < k <= |s.cbs| && Added(s.cbs, k) != [] && Times(s.fired, k) == []
    ensures BeginsAt(s.cbs, k) <= s.heads[0] == s.heads[k]
  {
    assert CallbackAt(s, k - 1);
    RunByRule(s, k - 1);
    RunByRule(s, k);
    if Added(s.cbs, k - 1) != [] {
      FoundNotFired(s, k - 1);
    }
  }

  /** Where record i fires if none is late. */
  function OnTime(rs: seq<Record>, base: nat, i: nat): nat
    requires i <= |rs|
  {
    base + Elapsed(rs, i)
  }

  ghost predicate AllOnTime(rs: seq<Record>, times: seq<nat>, base: nat) {
    |times| <= |rs| && forall i :: 0 <= i < |times| ==> times[i] == OnTime(rs, base, i)
  }

  /** A batch whose first record is not late has no late record. */
  lemma {:induction false} BatchOnTime(rs: seq<Record>, n: nat, more: seq<nat>, due: nat, start: nat, end: nat,
                                       base: nat, k: nat)
    requires n <= |rs| && Firing(rs[n..], more, due, start, end) && k < |more|
    requires OnTime(rs, base, n) == Later(due, start)
    ensures more[k] == OnTime(rs, base, n + k)
  {
    assert Fires(rs[n..], more, due, start, end, k);
    if k > 0 {
      BatchOnTime(rs, n, more, due, start, end, base, k - 1);
      assert Fires(rs[n..], more, due, start, end, k - 1);
      assert rs[n..][k - 1] == rs[n + k - 1];
      assert Elapsed(rs, n + k) == Elapsed(rs, n + k - 1) + rs[n + k - 1].duration;
    }
  }

  lemma WholeBatchOnTime(rs: seq<Record>, n: nat, more: seq<nat>, due: nat, start: nat, end: nat, base: nat)
    requires n <= |rs| && Firing(rs[n..], more, due, start, end)
    requires OnTime(rs, base, n) == Later(due, start)
    ensures forall k :: 0 <= k < |more| ==> more[k] == OnTime(rs, base, n + k)
  {
    forall k | 0 <= k < |more| ensures more[k] == OnTime(rs, base, n + k) {
      BatchOnTime(rs, n, more, due, start, end, base, k);
    }
  }

  /** What the next callback finds when the n records fired so far were on time. */
  ghost predicate HeadOnTime(s: Session, rs: seq<Record>, k: nat, base: nat, n: nat) {
    && k < |s.heads| && n <= |rs|
    && if n > 0 then k > 0 && s.heads[k] == OnTime(rs, base, n) else s.heads[k] == s.heads[0]
  }

  /** A batch from the records so far is one from all the records. */
  lemma FiringFromMore(q: seq<Record>, rs: seq<Record>, times: seq<nat>, head: nat, start: nat, end: nat)
    requires Firing(q, times, head, start, end) && q <= rs
    ensures Firing(rs, times, head, start, end)
    ensures DueAt(rs, times, head, |times|) == DueAt(q, times, head, |times|)
  {
    forall k | 0 <= k < |times| ensures Fires(rs, times, head, start, end, k) {
      assert Fires(q, times, head, start, end, k);
    }
  }

  lemma CallbackBatch(s: Session, k: nat, rs: seq<Record>, n: nat)
    requires IsSession(s) && k < |s.cbs| && rs == All(s) && n == |Times(s.fired, k)|
    ensures n <= |rs| && Firing(rs[n..], s.fired[k], s.heads[k], s.cbs[k].start, EndOf(s.cbs, k + 1))
    ensures s.heads[k + 1] == DueAt(rs[n..], s.fired[k], s.heads[k], |s.fired[k]|)
  {
    assert CallbackAt(s, k);
    QueueIsRest(s, k);
    AddedPrefix(s.cbs, k, k + 1);
    AddedPrefix(s.cbs, k + 1, |s.cbs|);
    var q := s.queues[k] + s.cbs[k].added;
    assert q <= rs[n..];
    FiringFromMore(q, rs[n..], s.fired[k], s.heads[k], s.cbs[k].start, EndOf(s.cbs, k + 1));
  }

  lemma CallbackOnTime(s: Session, k: nat, rs: seq<Record>, base: nat, n: nat)
    requires Steady(s) && k < |s.cbs| && rs == All(s) && base == BaseOf(s)
    requires n == |Times(s.fired, k)| && HeadOnTime(s, rs, k, base, n)
    ensures forall i :: 0 <= i < |s.fired[k]| ==> n + i < |rs| && s.fired[k][i] == OnTime(rs, base, n + i)
    ensures HeadOnTime(s, rs, k + 1, base, n + |s.fired[k]|)
  {
    CallbackBatch(s, k, rs, n);
    if s.fired[k] != [] {
      FirstNotLate(s, k, rs, base, n);
      BatchLeaves(rs, n, s.fired[k], s.heads[k], s.cbs[k].start, EndOf(s.cbs, k + 1), base);
    }
  }

  /** A batch on time, and what it leaves for the next. */
  lemma BatchLeaves(rs: seq<Record>, n: nat, more: seq<nat>, due: nat, start: nat, end: nat, base: nat)
    requires n <= |rs| && Firing(rs[n..], more, due, start, end) && more != []
    requires OnTime(rs, base, n) == Later(due, start)
    ensures forall i :: 0 <= i < |more| ==> n + i < |rs| && more[i] == OnTime(rs, base, n + i)
    ensures DueAt(rs[n..], more, due, |more|) == OnTime(rs, base, n + |more|)
  {
    WholeBatchOnTime(rs, n, more, due, start, end, base);
    assert OnTime(rs, base, n + |more|) == OnTime(rs, base, n + |more| - 1) + rs[n..][|more| - 1].duration;
  }

  lemma {:induction false} NoneIsLate(s: Session, k: nat, rs: seq<Record>, base: nat)
    requires Steady(s) && k <= |s.cbs| && rs == All(s) && base == BaseOf(s)
    ensures AllOnTime(rs, Times(s.fired, k), base)
    ensures HeadOnTime(s, rs, k, base, |Times(s.fired, k)|)
  {
    if k > 0 {
      NoneIsLate(s, k - 1, rs, base);
      CallbackOnTime(s, k - 1, rs, base, |Times(s.fired, k - 1)|);
    }
  }

  /** The first record that a callback fires is not late. */
  lemma FirstNotLate(s: Session, k: nat, rs: seq<Record>, base: nat, n: nat)
    requires Steady(s) && k < |s.cbs| && s.fired[k] != [] && rs == All(s) && base == BaseOf(s)
    requires n == |Times(s.fired, k)| && HeadOnTime(s, rs, k, base, n)
    ensures OnTime(rs, base, n) == Later(s.heads[k], s.cbs[k].start)
  {
    SomethingFound(s, k);
    if Added(s.cbs, k) != [] {
      assert FedInTime(s, k) && ResumedInTime(s, k);
      if n == 0 {
        BaseStays(s, k);
      }
    } else {
      RunByRule(s, k);
      BeginsOnce(s.cbs, k + 1, |s.cbs|);
    }
  }

  /** A callback fires what was in the queue or has just been added. */
  lemma SomethingFound(s: Session, k: nat)
    requires IsSession(s) && k < |s.cbs| && s.fired[k] != []
    ensures s.queues[k] != [] || s.cbs[k].added != []
    ensures Added(s.cbs, k + 1) != []
  {
    assert CallbackAt(s, k);
    assert Fires(s.queues[k] + s.cbs[k].added, s.fired[k], s.heads[k], s.cbs[k].start, EndOf(s.cbs, k + 1), 0);
    RunByRule(s, k);
  }

  /** Nothing has fired yet although there is something: the first record fires at the head. */
  lemma BaseStays(s: Session, k: nat)
    requires IsSession(s) && 0 < k <= |s.cbs| && Added(s.cbs, k) != [] && Times(s.fired, k) == []
    ensures BaseOf(s) == s.heads[0] == s.heads[k]
  {
    FoundNotFired(s, k);
    BeginsOnce(s.cbs, k, |s.cbs|);
  }

  // ---- and that is just what it takes ----

  lemma {:induction false} TimesPrefix(fired: seq<seq<nat>>, j: nat, k: nat)
    requires j <= k <= |fired|
    ensures Times(fired, j) <= Times(fired, k)
  {
    if j < k {
      TimesPrefix(fired, j, k - 1);
    }
  }

  /** A callback that starts after a record was due, with other records before it, fires that record late. */
  lemma LateStart(s: Session, k: nat)
    requires IsSession(s) && k < |s.cbs| && Added(s.cbs, k) != [] && (s.queues[k] != [] || s.cbs[k].added != [])
    requires s.heads[k] < s.cbs[k].start
    ensures !AllOnTime(All(s), Times(s.fired, |s.cbs|), BaseOf(s))
  {
    var rs, times, n := All(s), Times(s.fired, |s.cbs|), |Times(s.fired, k)|;
    FiresAtStart(s, k);
    TimesPrefix(s.fired, k, k + 1);
    TimesPrefix(s.fired, k + 1, |s.cbs|);
    assert times[n] == s.fired[k][0] == s.cbs[k].start;
    if n == 0 {
      BaseStays(s, k);
    } else {
      RunByRule(s, k);
      AddedPrefix(s.cbs, k, |s.cbs|);
      assert s.heads[k] == times[n - 1] + rs[n - 1].duration;
      assert n < |rs| ==> OnTime(rs, BaseOf(s), n) == OnTime(rs, BaseOf(s), n - 1) + rs[n - 1].duration;
    }
  }

  lemma FiresAtStart(s: Session, k: nat)
    requires IsSession(s) && k < |s.cbs| && (s.queues[k] != [] || s.cbs[k].added != []) && s.heads[k] < s.cbs[k].start
    ensures s.fired[k] != [] && s.fired[k][0] == s.cbs[k].start
  {
    assert CallbackAt(s, k);
    assert s.fired[k] != [];
    assert Fires(s.queues[k] + s.cbs[k].added, s.fired[k], s.heads[k], s.cbs[k].start, EndOf(s.cbs, k + 1), 0);
  }

  lemma NotInTime(s: Session)
    requires IsSession(s) && 0 < |s.cbs| && !(NeverStarved(s) && NeverHeldUp(s))
    ensures !AllOnTime(All(s), Times(s.fired, |s.cbs|), BaseOf(s))
  {
    if !NeverStarved(s) {
      var k :| 0 <= k < |s.cbs| && !FedInTime(s, k);
      LateStart(s, k);
    } else {
      var k :| 0 <= k < |s.cbs| && !ResumedInTime(s, k);
      RunByRule(s, k);
      LateStart(s, k);
    }
  }

  /**
   Over every session, whatever its records and callbacks: nothing that has fired was late if and only if the queue
   never starved and was never held up.
   */
  lemma OnTimeIff(s: Session)
    requires IsSession(s) && 0 < |s.cbs|
    ensures AllOnTime(All(s), Times(s.fired, |s.cbs|), BaseOf(s)) <==> NeverStarved(s) && NeverHeldUp(s)
  {
    if NeverStarved(s) && NeverHeldUp(s) {
      NoneIsLate(s, |s.cbs|, All(s), BaseOf(s));
    } else {
      NotInTime(s);
    }
  }

  /** With callbacks short enough that follow on from one another the cap never matters. */
  lemma OnTimeIffNeverStarved(s: Session, m: nat)
    requires IsSession(s) && 0 < |s.cbs| && Contiguous(s.cbs) && ShortEnough(s.cbs, m)
    ensures AllOnTime(All(s), Times(s.fired, |s.cbs|), BaseOf(s)) <==> NeverStarved(s)
  {
    OnTimeIff(s);
    HeldUpIffCut(s);
    forall k | 0 <= k < |s.cbs| ensures !CutShort(s, k) {
      ShortIsNotCut(s, m, k);
    }
  }

  /**
   Every record whose time comes before the end of the session has fired, and at the sum of the durations before it,
   if and only if besides that the last callback was not cut short.
   */
  lemma AllFired(s: Session)
    requires IsSession(s) && 0 < |s.cbs|
    requires All(s) != [] ==> OnTime(All(s), BaseOf(s), |All(s)| - 1) < EndOf(s.cbs, |s.cbs|)
    ensures var times := Times(s.fired, |s.cbs|);
      (|times| == |All(s)| && AllOnTime(All(s), times, BaseOf(s)) <==> Steady(s) && !CutShort(s, |s.cbs| - 1))
  {
    var K := |s.cbs|;
    OnTimeIff(s);
    RunByRule(s, K);
    if Steady(s) && |Times(s.fired, K)| < |All(s)| {
      LeftIsDue(s, |Times(s.fired, K)|);
    }
  }

  lemma LeftIsDue(s: Session, n: nat)
    requires Steady(s) && n == |Times(s.fired, |s.cbs|)| < |All(s)|
    ensures s.heads[|s.cbs|] <= OnTime(All(s), BaseOf(s), |All(s)| - 1)
  {
    NoneIsLate(s, |s.cbs|, All(s), BaseOf(s));
    ElapsedGrows(All(s), n, |All(s)| - 1);
  }

  // ---- lateness stays ----

  /** How late record i is, counted from when a record at time 0 would have been followed by it. */
  function Lateness(rs: seq<Record>, times: seq<nat>, i: nat): int
    requires i < |times| <= |rs|
  {
    times[i] - Elapsed(rs, i)
  }

  /** A record is at least as late as any before it, whatever made that late. */
  lemma {:induction false} NeverCatchesUp(s: Session, i: nat, j: nat)
    requires IsSession(s) && i <= j < |Times(s.fired, |s.cbs|)| <= |All(s)|
    ensures Lateness(All(s), Times(s.fired, |s.cbs|), i) <= Lateness(All(s), Times(s.fired, |s.cbs|), j)
  {
    if i < j {
      NeverCatchesUp(s, i, j - 1);
      RecordsFireInOrder(s, |s.cbs|, j);
    }
  }
}
