/**
 The registry's slot and stream tables. One mutex covers each method. Whether a
 record, a gate or a stream is still referred to from outside is known only to
 the reference counts, so the callers pass the set of those that are.
 */
module WorkRegistry {
  import opened Common
  import opened RegistryModel

  class Registry {
    const manager: nat
    const limits: Limits
    var closed: bool
    var workSerial: nat
    var streamSerial: nat
    var slots: seq<Slot>
    var places: seq<Option<nat>>          // the stream table, by serial
    var objects: map<nat, Stream>         // every stream ever opened, by serial
    ghost var history: History            // every request ever issued

    ghost predicate Valid()
      reads this
    {
      && HistorySound(history, manager, workSerial, objects)
      && SlotsSound(slots, history)
      && StreamsSound(places, objects, streamSerial)
    }

    /** Nothing changed. */
    twostate predicate Same()
      reads this
    {
      && closed == old(closed) && workSerial == old(workSerial) && streamSerial == old(streamSerial)
      && slots == old(slots) && places == old(places) && objects == old(objects) && history == old(history)
    }

    /** What no method undoes: the history only grows, serials only rise, and
        closing is permanent. */
    twostate predicate Grows()
      reads this
    {
      && (forall k :: k in old(history) ==> k in history && history[k] == old(history)[k])
      && old(workSerial) <= workSerial && old(streamSerial) <= streamSerial
      && |slots| == |old(slots)| && |places| == |old(places)|
      && (forall n :: n in old(objects) ==> n in objects && old(objects)[n].highWater <= objects[n].highWater
                                            && (old(objects)[n].closed ==> objects[n].closed))
      && (old(closed) ==> closed)
    }

    constructor (manager: nat, limits: Limits, records: nat, streams: nat)
      ensures Valid() && history == map[] && !closed && |slots| == records && |places| == streams
      ensures this.manager == manager && this.limits == limits
    {
      this.manager, this.limits := manager, limits;
      closed, workSerial, streamSerial := false, 0, 0;
      slots := seq(records, _ => EMPTY);
      places := seq(streams, _ => None);
      objects, history := map[], map[];
    }

    /** Opens a stream under a new serial, in a place that is free or whose
        stream is closed and no longer referred to. Zero when it cannot. */
    method OpenStream(held: set<nat>) returns (serial: nat)
      requires Valid()
      modifies this
      ensures Valid() && Grows() && history == old(history) && slots == old(slots) && workSerial == old(workSerial)
      ensures serial == 0 ==> Same()
      ensures serial != 0 ==>
                && !closed && old(streamSerial) < limits.streamSerial
                && serial == streamSerial == old(streamSerial) + 1
                && serial !in old(objects) && objects == old(objects)[serial := Stream(0, false)]
                && exists i :: 0 <= i < |places| && places == old(places)[i := Some(serial)]
                               && (old(places)[i].Some? ==>
                                     old(objects)[old(places)[i].value].closed && old(places)[i].value !in held)
      ensures serial == 0 && !closed && streamSerial < limits.streamSerial ==>
                forall i :: 0 <= i < |places| ==>
                  places[i].Some? && (!objects[places[i].value].closed || places[i].value in held)
    {
      if closed || streamSerial >= limits.streamSerial { return 0; }
      for i := 0 to |places|
        invariant Same() && Valid()
        invariant forall k :: 0 <= k < i ==>
          places[k].Some? && (!objects[places[k].value].closed || places[k].value in held)
      {
        if places[i].Some? && (!objects[places[i].value].closed || places[i].value in held) { continue; }
        streamSerial := streamSerial + 1;
        objects := objects[streamSerial := Stream(0, false)];
        places := places[i := Some(streamSerial)];
        return streamSerial;
      }
      return 0;
    }

    /** The open stream with this serial, zero when there is none. */
    method FindStream(identity: nat) returns (serial: nat)
      requires Valid()
      ensures serial == identity || serial == 0
      ensures identity != 0 ==>
                (serial != 0 <==> !closed && Some(identity) in places && !objects[identity].closed)
    {
      if identity == 0 || closed { return 0; }
      for i := 0 to |places|
        invariant forall k :: 0 <= k < i ==> !(places[k] == Some(identity) && !objects[identity].closed)
      {
        if places[i] == Some(identity) && !objects[identity].closed { return identity; }
      }
      return 0;
    }

    /** Closes the stream and cancels its unfinished allocations. */
    method CloseStream(stream: nat) returns (ok: bool)
      requires Valid()
      modifies this
      ensures Valid() && Grows() && history == old(history)
      ensures ok <==> stream in old(objects)
      ensures !ok ==> Same()
      ensures ok ==> objects == old(objects)[stream := old(objects)[stream].(closed := true)]
      ensures ok ==> forall i :: 0 <= i < |slots| ==>
                slots[i] == old(slots)[i].(cancelled := old(slots)[i].cancelled
                  || (old(slots)[i].phase == Allocating && old(slots)[i].stream == stream))
    {
      if stream !in objects { return false; }
      objects := objects[stream := objects[stream].(closed := true)];
      CancelAllocations(Some(stream));
      return true;
    }

    method CancelAllocations(stream: Option<nat>)
      requires Valid()
      modifies this`slots
      ensures Valid() && |slots| == |old(slots)|
      ensures forall i :: 0 <= i < |slots| ==>
                slots[i] == old(slots)[i].(cancelled := old(slots)[i].cancelled
                  || (old(slots)[i].phase == Allocating && (stream.None? || old(slots)[i].stream == stream.value)))
    {
      for i := 0 to |slots|
        invariant Valid() && |slots| == |old(slots)|
        invariant forall k :: 0 <= k < i ==>
          slots[k] == old(slots)[k].(cancelled := old(slots)[k].cancelled
            || (old(slots)[k].phase == Allocating && (stream.None? || old(slots)[k].stream == stream.value)))
        invariant forall k :: i <= k < |slots| ==> slots[k] == old(slots)[k]
      {
        if slots[i].phase == Allocating && (stream.None? || slots[i].stream == stream.value) {
          SlotChanged(slots, history, i, slots[i].(cancelled := true));
          slots := slots[i := slots[i].(cancelled := true)];
        }
      }
    }

    method CloseStreamIfUnused(stream: nat) returns (ok: bool)
      requires Valid()
      modifies this
      ensures Valid() && Grows() && history == old(history) && slots == old(slots)
      ensures ok <==>
                && stream in old(objects) && !closed && !old(objects)[stream].closed
                && old(objects)[stream].highWater == 0
      ensures ok ==> forall k :: k in history ==> k.0 != stream
      ensures !ok ==> Same()
    {
      if stream !in objects { return false; }
      if closed || objects[stream].closed || objects[stream].highWater != 0 { return false; }
      objects := objects[stream := objects[stream].(closed := true)];
      return true;
    }

    /** The slot that holds the request, or -1. */
    method FindKey(stream: nat, sequence: nat) returns (at: int)
      requires Valid()
      ensures -1 <= at < |slots|
      ensures at >= 0 ==> Keyed(slots[at], stream, sequence)
      ensures at < 0 ==> forall i :: 0 <= i < |slots| ==> !Keyed(slots[i], stream, sequence)
    {
      for i := 0 to |slots|
        invariant forall k :: 0 <= k < i ==> !Keyed(slots[k], stream, sequence)
      {
        if Keyed(slots[i], stream, sequence) { return i; }
      }
      return -1;
    }

    /** The slot that holds the work, or -1. */
    method FindWork(work: Identity) returns (at: int)
      requires Valid()
      ensures -1 <= at < |slots|
      ensures at >= 0 ==> Occupied(slots[at]) && slots[at].work == work
      ensures at < 0 ==> forall i :: 0 <= i < |slots| && Occupied(slots[i]) ==> slots[i].work != work
    {
      if work.serial == 0 || work.manager != manager { return -1; }
      for i := 0 to |slots|
        invariant forall k :: 0 <= k < i && Occupied(slots[k]) ==> slots[k].work != work
      {
        if Occupied(slots[i]) && slots[i].work == work { return i; }
      }
      return -1;
    }

    /** The first slot a new request may take, or -1. */
    method FindReusable(pinned: set<Identity>) returns (at: int)
      ensures -1 <= at < |slots|
      ensures at >= 0 ==> Reusable(slots[at], pinned)
      ensures at < 0 ==> forall i :: 0 <= i < |slots| ==> !Reusable(slots[i], pinned)
    {
      for i := 0 to |slots|
        invariant forall k :: 0 <= k < i ==> !Reusable(slots[k], pinned)
      {
        if Reusable(slots[i], pinned) { return i; }
      }
      return -1;
    }

    /** Gives a request its work, once. A key already in the history is never
        given another work, whatever happened to its slot since. */
    method Reserve(stream: nat, sequence: nat, pinned: set<Identity>) returns (reply: Reply)
      requires Valid()
      modifies this
      ensures Valid() && Grows()
      ensures reply.outcome != Accepted ==> Same()
      ensures reply.work.Some? ==> (stream, sequence) in history && history[(stream, sequence)] == reply.work.value
      ensures reply.outcome == Accepted ==>
                && (stream, sequence) !in old(history) && reply.work.Some?
                && reply.work.value == Identity(manager, old(workSerial) + 1)
                && (forall k :: k in old(history) ==> old(history)[k] != reply.work.value)
                && history == old(history)[(stream, sequence) := reply.work.value]
                && exists i :: 0 <= i < |slots| && Reusable(old(slots)[i], pinned)
                               && slots == old(slots)[i := Slot(reply.work.value, stream, sequence, Allocating,
                                  false, 0, false)]
      ensures (stream, sequence) in old(history) ==> reply.outcome in {Existing, Pending, Closed, Stale}
      ensures reply.outcome == Foreign <==> stream !in old(objects)
      ensures reply.outcome == Invalid <==> stream in old(objects) && sequence == 0
      ensures stream in old(objects) && sequence != 0 && (old(closed) || old(objects)[stream].closed) ==>
                reply == Reply(Closed, None, 0)
      ensures stream in old(objects) && sequence != 0 && !old(closed) && !old(objects)[stream].closed ==>
                forall i :: 0 <= i < |old(slots)| && Keyed(old(slots)[i], stream, sequence) ==>
                  reply == Answer(old(slots)[i])
      ensures reply.outcome == Capacity ==> forall i :: 0 <= i < |slots| ==> !Reusable(slots[i], pinned)
      ensures reply.outcome == Exhausted ==> workSerial >= limits.workSerial
      ensures (&& stream in old(objects) && sequence > old(objects)[stream].highWater
               && !old(closed) && !old(objects)[stream].closed && old(workSerial) < limits.workSerial
               && (exists i :: 0 <= i < |old(slots)| && Reusable(old(slots)[i], pinned))) ==>
                reply.outcome == Accepted
    {
      if stream !in objects { return Reply(Foreign, None, 0); }
      if sequence == 0 { return Reply(Invalid, None, 0); }
      if closed || objects[stream].closed { return Reply(Closed, None, 0); }
      var found := FindKey(stream, sequence);
      if found >= 0 {
        forall i | 0 <= i < |slots| && Keyed(slots[i], stream, sequence)
          ensures i == found
        {
          KeysAreUnique(slots, history, i, found);
        }
        return Answer(slots[found]);
      }
      if sequence <= objects[stream].highWater { return Reply(Stale, None, 0); }
      if workSerial >= limits.workSerial { return Reply(Exhausted, None, 0); }
      var chosen := FindReusable(pinned);
      if chosen < 0 { return Reply(Capacity, None, 0); }
      reply := Give(chosen, stream, sequence);
    }

    method Give(chosen: nat, stream: nat, sequence: nat) returns (reply: Reply)
      requires Valid() && chosen < |slots| && stream in objects && sequence > objects[stream].highWater
      modifies this
      ensures Valid() && Grows() && (stream, sequence) !in old(history)
      ensures reply == Reply(Accepted, Some(Identity(manager, old(workSerial) + 1)), 0)
      ensures forall k :: k in old(history) ==> old(history)[k] != reply.work.value
      ensures history == old(history)[(stream, sequence) := reply.work.value]
      ensures slots == old(slots)[chosen := Slot(reply.work.value, stream, sequence, Allocating, false, 0, false)]
    {
      SlotGiven(slots, history, manager, workSerial, objects, chosen, stream, sequence);
      workSerial := workSerial + 1;
      var work := Identity(manager, workSerial);
      slots := slots[chosen := Slot(work, stream, sequence, Allocating, false, 0, false)];
      objects := objects[stream := objects[stream].(highWater := sequence)];
      history := history[(stream, sequence) := work];
      reply := Reply(Accepted, Some(work), 0);
    }

    /** Answers about a request without issuing anything. NotFound is said only
        of a key that was never issued. */
    method LookupRequest(stream: nat, sequence: nat) returns (reply: Reply)
      requires Valid()
      ensures reply.work.Some? ==> (stream, sequence) in history && history[(stream, sequence)] == reply.work.value
      ensures reply.outcome == NotFound ==> (stream, sequence) !in history
      ensures (stream, sequence) in history ==> reply.outcome in {Existing, Pending, Closed, Stale}
      ensures reply.outcome == Invalid <==> stream == 0 || sequence == 0
      ensures reply.outcome == Foreign <==> stream > streamSerial && sequence != 0
      ensures 0 < stream <= streamSerial && sequence != 0 ==>
                forall i :: 0 <= i < |slots| && Keyed(slots[i], stream, sequence) ==> reply == Answer(slots[i])
      ensures (&& !closed && Some(stream) in places && stream in objects && !objects[stream].closed
               && sequence > objects[stream].highWater) ==>
                reply.outcome == NotFound
    {
      if stream == 0 || sequence == 0 { return Reply(Invalid, None, 0); }
      if stream > streamSerial { return Reply(Foreign, None, 0); }
      var found := FindKey(stream, sequence);
      if found >= 0 {
        forall i | 0 <= i < |slots| && Keyed(slots[i], stream, sequence)
          ensures i == found
        {
          KeysAreUnique(slots, history, i, found);
        }
        return Answer(slots[found]);
      }
      assert objects[stream].highWater < sequence ==>
          forall i :: 0 <= i < |slots| ==> !Keyed(slots[i], stream, sequence);
      var open := FindStream(stream);
      if open != 0 {
        return Reply(if sequence > objects[stream].highWater then NotFound else Stale, None, 0);
      }
      return Reply(Stale, None, 0);
    }

    /** Ends an allocation: the slot becomes Ready, or Failed for ever. */
    method ReservationFinished(ticket: Option<Identity>, gate: Option<Offered>, error: int) returns (reply: Reply)
      requires Valid()
      modifies this`slots
      ensures Valid() && Grows() && history == old(history)
      ensures reply.outcome == Foreign <==> ticket.None?
      ensures reply.outcome == Invalid <==> ticket.Some? && !WellReported(ticket.value, gate, error)
      ensures reply.outcome in {Foreign, Invalid, Stale, Closed, Accepted}
      ensures reply.outcome in {Foreign, Invalid, Stale} ==> slots == old(slots)
      ensures reply.outcome == Stale ==>
                forall i :: 0 <= i < |slots| && slots[i].phase == Allocating ==> Some(slots[i].work) != ticket
      ensures reply.outcome in {Closed, Accepted} ==>
                && reply.work == ticket
                && exists i ::
                     && 0 <= i < |slots| && old(slots)[i].phase == Allocating && Some(old(slots)[i].work) == ticket
                     && (reply.outcome == Accepted <==>
                           error == 0 && gate.Some? && !gate.value.stopped && !closed && !old(slots)[i].cancelled)
                     && slots == old(slots)[i := if reply.outcome == Accepted then old(slots)[i].(phase := Ready)
                                                else old(slots)[i].(phase := FailedSlot, error := reply.error)]
    {
      if ticket.None? { return Reply(Foreign, None, 0); }
      var work := ticket.value;
      if !WellReported(work, gate, error) { return Reply(Invalid, None, 0); }
      var at := FindWork(work);
      if at < 0 || slots[at].phase != Allocating {
        assert at >= 0 ==> forall i :: 0 <= i < |slots| && Occupied(slots[i]) && slots[i].work == work ==> i == at;
        return Reply(Stale, None, 0);
      }
      var next := if error != 0 || closed || slots[at].cancelled || gate.value.stopped
                  then slots[at].(phase := FailedSlot, error := if error != 0 then error else ECANCELED)
                  else slots[at].(phase := Ready);
      SlotChanged(slots, history, at, next);
      slots := slots[at := next];
      reply := if next.phase == Ready then Reply(Accepted, ticket, 0) else Reply(Closed, ticket, next.error);
    }

    method CancelReservation(work: Identity) returns (ok: bool)
      requires Valid()
      modifies this`slots
      ensures Valid() && Grows() && history == old(history)
      ensures ok <==> exists i :: 0 <= i < |slots| && old(slots)[i].phase == Allocating && old(slots)[i].work == work
      ensures !ok ==> slots == old(slots)
      ensures ok ==> exists i :: 0 <= i < |slots| && old(slots)[i].phase == Allocating && old(slots)[i].work == work
                                 && slots == old(slots)[i := old(slots)[i].(cancelled := true)]
    {
      var at := FindWork(work);
      if at < 0 || slots[at].phase != Allocating { return false; }
      SlotChanged(slots, history, at, slots[at].(cancelled := true));
      slots := slots[at := slots[at].(cancelled := true)];
      return true;
    }

    /** Marks a work's record forgotten if it is complete, which is told by the
        record under its own lock; the slot stays occupied. */
    method Forget(work: Identity, complete: bool) returns (outcome: Outcome)
      requires Valid()
      modifies this`slots
      ensures Valid() && Grows() && history == old(history)
      ensures outcome == Foreign <==>
                forall i :: 0 <= i < |old(slots)| && old(slots)[i].phase == Ready ==> old(slots)[i].work != work
      ensures outcome != Foreign ==>
                exists i :: 0 <= i < |slots| && old(slots)[i].phase == Ready && old(slots)[i].work == work
                     && outcome == (if old(slots)[i].forgotten then Existing
                                    else if !complete then Incomplete else Accepted)
                     && slots == old(slots)[i := old(slots)[i].(forgotten := old(slots)[i].forgotten || complete)]
      ensures outcome != Accepted ==> slots == old(slots)
    {
      var at := FindWork(work);
      if at < 0 || slots[at].phase != Ready {
        return Foreign;
      }
      if slots[at].forgotten { return Existing; }
      if !complete { return Incomplete; }
      SlotChanged(slots, history, at, slots[at].(forgotten := true));
      slots := slots[at := slots[at].(forgotten := true)];
      return Accepted;
    }

    /** Permanent closure: every stream is closed and every allocation cancelled.
        Returns the works whose records are to be stopped, in order. */
    method Close() returns (stops: seq<Identity>)
      requires Valid()
      modifies this
      ensures Valid() && Grows() && history == old(history) && closed
      ensures forall i :: 0 <= i < |places| && places[i].Some? ==> objects[places[i].value].closed
      ensures forall i :: 0 <= i < |slots| && slots[i].phase == Allocating ==> slots[i].cancelled
      ensures |slots| == |old(slots)|
      ensures forall i :: 0 <= i < |slots| ==> slots[i] == old(slots)[i].(cancelled := slots[i].cancelled)
      ensures forall w :: w in stops <==> exists i :: 0 <= i < |slots| && slots[i].phase == Ready && slots[i].work == w
    {
      closed := true;
      CloseStreams();
      CancelAllocations(None);
      stops := Recorded();
    }

    method CloseStreams()
      requires Valid()
      modifies this`objects
      ensures Valid() && Grows()
      ensures forall i :: 0 <= i < |places| && places[i].Some? ==> objects[places[i].value].closed
    {
      for i := 0 to |places|
        invariant Valid() && Grows()
        invariant forall k :: 0 <= k < i && places[k].Some? ==> objects[places[k].value].closed
      {
        if places[i].Some? {
          objects := objects[places[i].value := objects[places[i].value].(closed := true)];
        }
      }
    }

    /** The works that have a record. */
    method Recorded() returns (works: seq<Identity>)
      ensures forall w :: w in works <==> exists i :: 0 <= i < |slots| && slots[i].phase == Ready && slots[i].work == w
    {
      works := [];
      for i := 0 to |slots|
        invariant forall w :: w in works <==> exists k :: 0 <= k < i && slots[k].phase == Ready && slots[k].work == w
      {
        if slots[i].phase == Ready {
          works := works + [slots[i].work];
        }
      }
    }
  }
}
