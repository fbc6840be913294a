// The registry that coalesces concurrent misses: a map from key to the slot of the request in flight.
// Registry is its abstract value (slots in order of creation); InFlightRegistry is the mutable object.
// The map and the slots are guarded by different mutexes, so publish is two critical sections.
module InFlight {
  import opened Wrappers

  type Key = string

  // `key` and `leader` never change: the key the slot was created for and the thread that created it.
  datatype Slot<R> = Slot(key: Key, leader: nat, ready: bool, success: bool, response: R)

  datatype Registry<R> = Registry(inflight: map<Key, nat>, slots: seq<Slot<R>>, coalesced: nat)

  // The slot that acquire(key) returns: the one in flight, or a new one.
  function SlotFor<R>(reg: Registry<R>, key: Key): nat {
    if key in reg.inflight then reg.inflight[key] else |reg.slots|
  }

  function Acquired<R>(reg: Registry<R>, key: Key, caller: nat, blank: R): Registry<R> {
    if key in reg.inflight then
      reg.(coalesced := reg.coalesced + 1)
    else
      reg.(inflight := reg.inflight[key := |reg.slots|],
           slots := reg.slots + [Slot(key, caller, false, false, blank)])
  }

  // First critical section of publish: take the slot out of the map, if it is there.
  function Erased<R>(reg: Registry<R>, key: Key): Registry<R> {
    reg.(inflight := reg.inflight - {key})
  }

  // Second critical section of publish: fill the slot and wake its waiters.
  function MadeReady<R>(reg: Registry<R>, slot: nat, response: R, success: bool): Registry<R>
    requires slot < |reg.slots|
  {
    reg.(slots := reg.slots[slot := reg.slots[slot].(ready := true, success := success, response := response)])
  }

  class InFlightSlot<R> {
    ghost const key: Key
    ghost const leader: nat
    var ready: bool
    var success: bool
    var response: R

    constructor (ghost key: Key, ghost leader: nat, blank: R)
      ensures this.key == key && this.leader == leader
      ensures !ready && !success && response == blank
    {
      this.key, this.leader := key, leader;
      ready, success, response := false, false, blank;
    }
  }

  class InFlightRegistry<R> {
    const blank: R
    var inflight: map<Key, InFlightSlot<R>>
    var coalesced: nat
    ghost var created: seq<InFlightSlot<R>>
    ghost var position: map<Key, nat>

    ghost predicate Valid()
      reads this
    {
      && (forall i, j :: 0 <= i < j < |created| ==> created[i] != created[j])
      && position.Keys == inflight.Keys
      && (forall k :: k in position ==> position[k] < |created| && created[position[k]] == inflight[k])
    }

    ghost function Value(): Registry<R>
      reads this, created
    {
      Registry(position,
               seq(|created|, i requires 0 <= i < |created| reads this, created =>
                 var s := created[i]; Slot(s.key, s.leader, s.ready, s.success, s.response)),
               coalesced)
    }

    constructor (blank: R)
      ensures Valid() && this.blank == blank
      ensures Value() == Registry(map[], [], 0)
    {
      this.blank := blank;
      inflight, coalesced := map[], 0;
      created, position := [], map[];
    }

    method Acquire(key: Key, ghost caller: nat) returns (leader: bool, slot: InFlightSlot<R>)
      requires Valid()
      modifies this
      ensures Valid()
      ensures leader == (key !in old(Value()).inflight)
      ensures Value() == Acquired(old(Value()), key, caller, blank)
      ensures SlotFor(old(Value()), key) < |created| && created[SlotFor(old(Value()), key)] == slot
    {
      if key !in inflight {
        slot := new InFlightSlot<R>(key, caller, blank);
        inflight := inflight[key := slot];
        position := position[key := |created|];
        created := created + [slot];
        return true, slot;
      }
      coalesced := coalesced + 1;
      return false, inflight[key];
    }

    method TakeOut(key: Key) returns (slot: Option<InFlightSlot<R>>)
      requires Valid()
      modifies this
      ensures Valid() && created == old(created)
      ensures Value() == Erased(old(Value()), key)
      ensures slot.Some? <==> key in old(Value()).inflight
      ensures slot.Some? ==> created[old(position)[key]] == slot.value
    {
      if key !in inflight {
        assert position - {key} == position;
        return None;
      }
      slot := Some(inflight[key]);
      inflight := inflight - {key};
      position := position - {key};
    }

    method MakeReady(slot: InFlightSlot<R>, ghost at: nat, response: R, success: bool)
      requires Valid()
      requires at < |created| && created[at] == slot
      modifies slot
      ensures Valid()
      ensures Value() == MadeReady(old(Value()), at, response, success)
    {
      slot.response := response;
      slot.success := success;
      slot.ready := true;
    }

    method Publish(key: Key, response: R, success: bool)
      requires Valid()
      modifies this, created
      ensures Valid()
      ensures var before := old(Value());
              Value() == (if key in before.inflight
                          then MadeReady(Erased(before, key), before.inflight[key], response, success)
                          else before)
    {
      ghost var at := SlotFor(Value(), key);
      ghost var before := Value();
      var slot := TakeOut(key);
      if slot.None? {
        assert before.inflight - {key} == before.inflight;
        return;
      }
      MakeReady(slot.value, at, response, success);
    }
  }
}
