/**
 The values of the registry's tables: a bounded table of slots that are
 recycled, a bounded table of request streams that are recycled, and the
 unbounded history they stand for, from each request key to the one work it
 was ever given.
 */
module RegistryModel {
  import opened Common

  datatype SlotPhase = EmptySlot | Allocating | Ready | FailedSlot

  datatype Slot = Slot(
    work: Identity, stream: nat, sequence: nat, phase: SlotPhase,
    cancelled: bool, error: int, forgotten: bool)

  const EMPTY := Slot(Identity(0, 0), 0, 0, EmptySlot, false, 0, false)

  datatype Stream = Stream(highWater: nat, closed: bool)

  /** A request: the stream and the sequence number within it. */
  type Key = (nat, nat)

  type History = map<Key, Identity>

  datatype Limits = Limits(workSerial: nat, streamSerial: nat)

  datatype Outcome =
    | Accepted | Existing | Pending | Invalid | Foreign | Stale
    | Capacity | Exhausted | Closed | NotFound | Incomplete

  /** A reply to Reserve, LookupRequest or ReservationFinished. */
  datatype Reply = Reply(outcome: Outcome, work: Option<Identity>, error: int)

  /** A gate as the allocator hands it over: its work and its phase. */
  datatype Offered = Offered(work: Identity, unbound: bool, stopped: bool)

  const ECANCELED := 125

  /** The allocator's report fits its ticket: a gate of that work that nobody
      has bound, or an error. */
  predicate WellReported(work: Identity, gate: Option<Offered>, error: int) {
    && error >= 0
    && (gate.Some? ==> gate.value.work == work && (gate.value.unbound || gate.value.stopped))
    && (gate.None? ==> error != 0)
  }

  predicate Occupied(s: Slot) { s.phase != EmptySlot }

  predicate Keyed(s: Slot, stream: nat, sequence: nat) {
    Occupied(s) && s.stream == stream && s.sequence == sequence
  }

  /** The slot may be given to a new request: nothing refers to what it held. */
  predicate Reusable(s: Slot, pinned: set<Identity>) {
    s.phase == EmptySlot || s.phase == FailedSlot || (s.phase == Ready && s.forgotten && s.work !in pinned)
  }

  ghost predicate HistorySound(h: History, manager: nat, workSerial: nat, objects: map<nat, Stream>) {
    && (forall k :: k in h ==> k.0 in objects && 0 < k.1 <= objects[k.0].highWater)
    && (forall k :: k in h ==> h[k].manager == manager && 0 < h[k].serial <= workSerial)
    && (forall k, l :: k in h && l in h && h[k] == h[l] ==> k == l)
  }

  ghost predicate SlotsSound(slots: seq<Slot>, h: History) {
    && (forall i :: 0 <= i < |slots| && Occupied(slots[i]) ==>
          (slots[i].stream, slots[i].sequence) in h && h[(slots[i].stream, slots[i].sequence)] == slots[i].work)
    && (forall i, j :: 0 <= i < |slots| && 0 <= j < |slots| && i != j && Occupied(slots[i]) && Occupied(slots[j]) ==>
          slots[i].work != slots[j].work)
  }

  ghost predicate StreamsSound(places: seq<Option<nat>>, objects: map<nat, Stream>, streamSerial: nat) {
    && (forall n :: n in objects <==> 0 < n <= streamSerial)
    && (forall i :: 0 <= i < |places| && places[i].Some? ==> places[i].value in objects)
    && (forall i, j :: 0 <= i < |places| && 0 <= j < |places| && i != j && places[i].Some? && places[j].Some? ==>
          places[i].value != places[j].value)
  }

  /** The answer about a request that some slot still holds. */
  function Answer(s: Slot): Reply
    requires Occupied(s)
  {
    match s.phase
    case Allocating => Reply(Pending, Some(s.work), 0)
    case FailedSlot => Reply(Closed, Some(s.work), s.error)
    case _ => Reply(if s.forgotten then Stale else Existing, Some(s.work), 0)
  }

  /** Two occupied slots never hold the same request. */
  lemma KeysAreUnique(slots: seq<Slot>, h: History, i: nat, j: nat)
    requires SlotsSound(slots, h) && i < |slots| && j < |slots| && Occupied(slots[i]) && Occupied(slots[j])
    requires slots[i].stream == slots[j].stream && slots[i].sequence == slots[j].sequence
    ensures i == j
  {
  }

  /** A slot given to a new key keeps the table a view of the longer history. */
  lemma SlotGiven(slots: seq<Slot>, h: History, manager: nat, workSerial: nat, objects: map<nat, Stream>,
                  i: nat, stream: nat, sequence: nat)
    requires SlotsSound(slots, h) && HistorySound(h, manager, workSerial, objects) && i < |slots|
    requires stream in objects && sequence > objects[stream].highWater
    ensures var work := Identity(manager, workSerial + 1);
            var h' := h[(stream, sequence) := work];
            && (stream, sequence) !in h
            && SlotsSound(slots[i := Slot(work, stream, sequence, Allocating, false, 0, false)], h')
            && HistorySound(h', manager, workSerial + 1, objects[stream := objects[stream].(highWater := sequence)])
  {
    var work := Identity(manager, workSerial + 1);
    var h' := h[(stream, sequence) := work];
    var slots' := slots[i := Slot(work, stream, sequence, Allocating, false, 0, false)];
    assert (stream, sequence) !in h;
    assert forall k :: k in h ==> h[k] != work;
    forall a | 0 <= a < |slots'| && Occupied(slots'[a])
      ensures (slots'[a].stream, slots'[a].sequence) in h'
              && h'[(slots'[a].stream, slots'[a].sequence)] == slots'[a].work
      ensures a != i ==> slots'[a].work != work
    {
      if a != i {
        assert (slots[a].stream, slots[a].sequence) in h;
      }
    }
  }

  /** Changing what a slot says of its own work, or emptying it, keeps the view. */
  lemma SlotChanged(slots: seq<Slot>, h: History, i: nat, s: Slot)
    requires SlotsSound(slots, h) && i < |slots|
    requires !Occupied(s) || (Occupied(slots[i]) && s.work == slots[i].work && s.stream == slots[i].stream
             && s.sequence == slots[i].sequence)
    ensures SlotsSound(slots[i := s], h)
  {
  }
}
