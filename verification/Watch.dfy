/**
 A `tokio::sync::watch` slot: one value that every write replaces, and a version
 that every write advances.  A receiver remembers the version it last marked as
 seen; `changed` completes exactly when the two differ.
 */
module Watch {
  import opened Wrappers

  datatype Slot<T> = Slot(value: T, version: nat) {
    function Replace(value: T): (slot: Slot<T>) {
      Slot(value, version + 1)
    }
  }

  /** What `request_collection` leaves in the request slot; the identifier it returns is the new value. */
  function Requested(slot: Slot<u64>): (next: Slot<u64>) {
    slot.Replace(Min(slot.value + 1, U64_MAX))
  }

  /** Identifiers are fresh exactly while the counter has not saturated. */
  lemma RequestsAreFreshBelowSaturation(slot: Slot<u64>)
    ensures slot.value < Requested(slot).value <==> slot.value < U64_MAX
    ensures slot.value == U64_MAX ==> Requested(slot).value == slot.value
  {
  }

  class WatchSlot<T> {
    var value: T
    var version: nat

    ghost function Snapshot(): (slot: Slot<T>)
      reads this
    {
      Slot(value, version)
    }

    constructor (initial: T)
      ensures Snapshot() == Slot(initial, 0)
    {
      value, version := initial, 0;
    }

    method SendReplace(next: T)
      modifies this
      ensures Snapshot() == old(Snapshot()).Replace(next)
    {
      value, version := next, version + 1;
    }
  }

  /** Allocates the next request identifier; a burst of requests leaves only the newest one in the slot. */
  method RequestCollection(slot: WatchSlot<u64>) returns (requestId: u64)
    modifies slot
    ensures slot.Snapshot() == Requested(old(slot.Snapshot()))
    ensures requestId == slot.value
  {
    requestId := if slot.value == U64_MAX then U64_MAX else slot.value + 1;
    slot.SendReplace(requestId);
  }
}
