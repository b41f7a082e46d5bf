/** framework_midi_event_init and framework_midi_event_get of sdrtcl/framework.h: merging the event sources. */
module FrameworkMidi {

  /** An event stamped with its frame in this callback. */
  datatype Event = Event(time: nat, bytes: seq<int>)

  datatype Delivery = Delivery(frame: nat, port: nat, event: Event)

  ghost predicate InTimeOrder(source: seq<Event>) {
    forall k, l :: 0 <= k < l < |source| ==> source[k].time <= source[l].time
  }

  /** What was delivered from one port, in order. */
  function FromPort(ds: seq<Delivery>, port: nat): seq<Event> {
    if ds == [] then [] else
      var rest := FromPort(ds[..|ds| - 1], port);
      if ds[|ds| - 1].port == port then rest + [ds[|ds| - 1].event] else rest
  }

  ghost predicate OnTime(ds: seq<Delivery>) {
    forall k :: 0 <= k < |ds| ==> ds[k].frame == ds[k].event.time
  }

  /** Source p, read as far as at[p], has an event due at this frame. */
  ghost predicate Due(sources: seq<seq<Event>>, at: seq<nat>, p: nat, frame: nat) {
    && p < |sources| && p < |at| && at[p] < |sources[p]|
    && sources[p][at[p]].time <= frame
  }

  class Merge {
    const sources: seq<seq<Event>>
    // per source: the cursor, and the event it stands on
    var at: seq<nat>
    var head: seq<Event>

    ghost predicate Valid()
      reads this
    {
      && |at| == |head| == |sources|
      && forall p :: 0 <= p < |sources| ==>
           at[p] <= |sources[p]| && (at[p] < |sources[p]| ==> head[p] == sources[p][at[p]])
    }

    constructor (sources: seq<seq<Event>>)
      ensures Valid() && this.sources == sources && forall p :: 0 <= p < |sources| ==> at[p] == 0
    {
      this.sources := sources;
      at := seq(|sources|, _ => 0);
      head := seq(|sources|, p requires 0 <= p < |sources| => if |sources[p]| > 0 then sources[p][0] else Event(0, []));
    }

    /** The next event due at this frame, from the first source that has one. */
    method EventGet(frame: nat) returns (found: bool, event: Event, port: nat)
      requires Valid()
      modifies this
      ensures Valid()
      ensures found ==>
        && Due(sources, old(at), port, frame) && event == sources[port][old(at)[port]]
        && (forall p :: 0 <= p < port ==> !Due(sources, old(at), p, frame))
        && at == old(at)[port := old(at)[port] + 1]
      ensures !found ==> at == old(at) && forall p :: 0 <= p < |sources| ==> !Due(sources, at, p, frame)
    {
      event, port := Event(0, []), 0;
      for i := 0 to |sources|
        invariant Valid() && at == old(at) && head == old(head)
        invariant forall p :: 0 <= p < i ==> !Due(sources, at, p, frame)
      {
        if at[i] < |sources[i]| && head[i].time <= frame {
          event, port := head[i], i;
          at := at[i := at[i] + 1];
          if at[i] < |sources[i]| {
            head := head[i := sources[i][at[i]]];
          }
          return true, event, port;
        }
      }
      found := false;
    }

    ghost function Left(): nat
      requires Valid()
      reads this
    {
      Remaining(sources, at)
    }

    /** Everything delivered so far left its source in order, on its own frame; nothing earlier than now is left. */
    ghost predicate UpTo(ds: seq<Delivery>, now: nat)
      reads this
    {
      && Valid() && OnTime(ds)
      && (forall p :: 0 <= p < |sources| ==> FromPort(ds, p) == sources[p][..at[p]])
      && (forall p, k :: 0 <= p < |sources| && at[p] <= k < |sources[p]| ==> now <= sources[p][k].time)
    }

    /** One event of a frame, if there is one. */
    method DeliverNext(frame: nat, ghost before: seq<Delivery>) returns (found: bool, d: Delivery)
      requires UpTo(before, frame) && forall p :: 0 <= p < |sources| ==> InTimeOrder(sources[p])
      modifies this
      ensures if found then UpTo(before + [d], frame) && Left() < old(Left()) else UpTo(before, frame)
      ensures !found ==> forall p :: 0 <= p < |sources| ==> !Due(sources, at, p, frame)
    {
      ghost var at0 := at;
      var event, port;
      found, event, port := EventGet(frame);
      d := Delivery(frame, port, event);
      if found {
        DeliverOne(sources, at0, before, d);
        RemainingDrops(sources, at0, port);
      }
    }

    /** The events of one frame. */
    method DeliverFrame(frame: nat, ghost before: seq<Delivery>) returns (ds: seq<Delivery>)
      requires UpTo(before, frame) && forall p :: 0 <= p < |sources| ==> InTimeOrder(sources[p])
      modifies this
      ensures UpTo(before + ds, frame + 1)
    {
      ds := [];
      assert before + [] == before;
      while true
        invariant UpTo(before + ds, frame)
        decreases Left()
      {
        var found, d := DeliverNext(frame, before + ds);
        if !found { break; }
        assert (before + ds) + [d] == before + (ds + [d]);
        ds := ds + [d];
      }
      forall p, k | 0 <= p < |sources| && at[p] <= k < |sources[p]| ensures frame + 1 <= sources[p][k].time {
        assert !Due(sources, at, p, frame);
      }
    }

    /** A whole callback: for each frame, get until there is nothing more for it. */
    method DeliverAll(nframes: nat) returns (ds: seq<Delivery>)
      requires Valid() && forall p :: 0 <= p < |sources| ==> at[p] == 0 && InTimeOrder(sources[p])
      requires forall p, k :: 0 <= p < |sources| && 0 <= k < |sources[p]| ==> sources[p][k].time < nframes
      modifies this
      ensures OnTime(ds)
      ensures forall p :: 0 <= p < |sources| ==> FromPort(ds, p) == sources[p]
    {
      ds := [];
      for frame := 0 to nframes
        invariant UpTo(ds, frame)
      {
        var more := DeliverFrame(frame, ds);
        ds := ds + more;
      }
      forall p | 0 <= p < |sources| ensures FromPort(ds, p) == sources[p] {
        assert !Due(sources, at, p, nframes);
        assert sources[p][..at[p]] == sources[p];
      }
    }
  }

  function Remaining(sources: seq<seq<Event>>, at: seq<nat>): nat
    requires |at| == |sources| && forall p :: 0 <= p < |sources| ==> at[p] <= |sources[p]|
  {
    if sources == [] then 0
    else Remaining(sources[..|sources| - 1], at[..|sources| - 1]) + |sources[|sources| - 1]| - at[|sources| - 1]
  }

  lemma {:induction false} RemainingDrops(sources: seq<seq<Event>>, at: seq<nat>, port: nat)
    requires |at| == |sources| && forall p :: 0 <= p < |sources| ==> at[p] <= |sources[p]|
    requires port < |sources| && at[port] < |sources[port]|
    ensures Remaining(sources, at[port := at[port] + 1]) < Remaining(sources, at)
  {
    var n := |sources| - 1;
    if port < n {
      assert at[port := at[port] + 1][..n] == at[..n][port := at[port] + 1];
      RemainingDrops(sources[..n], at[..n], port);
    } else {
      assert at[port := at[port] + 1][..n] == at[..n];
    }
  }

  lemma DeliverOne(sources: seq<seq<Event>>, at: seq<nat>, ds: seq<Delivery>, d: Delivery)
    requires |at| == |sources| && d.port < |sources| && at[d.port] < |sources[d.port]| &&
      d.event == sources[d.port][at[d.port]]
    requires forall p :: 0 <= p < |sources| ==> at[p] <= |sources[p]| && FromPort(ds, p) == sources[p][..at[p]]
    ensures forall p :: 0 <= p < |sources| ==>
      FromPort(ds + [d], p) == sources[p][..if p == d.port then at[p] + 1 else at[p]]
  {
    assert (ds + [d])[..|ds|] == ds;
  }
}
