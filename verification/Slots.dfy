/** Worker slots: declared capacity and what is allocated on each. */
module Slots {
  import opened Domain

  type SlotIndex = nat

  datatype WorkerSlot = WorkerSlot(capacity: Resources, used: Resources) {
    function Free(): Resources { capacity.Minus(used) }
  }

  datatype CapacityError = NoSuchSlot(slot: SlotIndex) | WouldExceed(slot: SlotIndex)

  datatype Result = Ok | Err(error: CapacityError)

  /** Nothing is overcommitted, except on a slot whose capacity was zeroed to drain it. */
  predicate Sound(slots: seq<WorkerSlot>) {
    forall i :: 0 <= i < |slots| ==> slots[i].used.FitsWithin(slots[i].capacity) || slots[i].capacity == ZERO
  }

  predicate FitsNow(slots: seq<WorkerSlot>, request: Resources, i: int) {
    0 <= i < |slots| && request.FitsWithin(slots[i].Free())
  }

  /** Lowest-indexed slot with room right now. */
  function FirstFit(slots: seq<WorkerSlot>, request: Resources): (r: Option<SlotIndex>)
    ensures r.Some? ==> FitsNow(slots, request, r.value) && forall i :: 0 <= i < r.value ==> !FitsNow(slots, request, i)
    ensures r == None ==> forall i :: 0 <= i < |slots| ==> !FitsNow(slots, request, i)
  {
    FirstFitFrom(slots, request, 0)
  }

  function FirstFitFrom(slots: seq<WorkerSlot>, request: Resources, from: nat): (r: Option<SlotIndex>)
    requires from <= |slots|
    ensures r.Some? ==> FitsNow(slots, request, r.value) && from <= r.value
                        && forall i :: from <= i < r.value ==> !FitsNow(slots, request, i)
    ensures r == None ==> forall i :: from <= i < |slots| ==> !FitsNow(slots, request, i)
    decreases |slots| - from
  {
    if from == |slots| then None
    else if request.FitsWithin(slots[from].Free()) then Some(from)
    else FirstFitFrom(slots, request, from + 1)
  }

  function Charge(slots: seq<WorkerSlot>, i: SlotIndex, request: Resources): (r: seq<WorkerSlot>)
    requires i < |slots| && slots[i].used.Plus(request).InWidth()
  {
    slots[i := slots[i].(used := slots[i].used.Plus(request))]
  }

  function Uncharge(slots: seq<WorkerSlot>, i: SlotIndex, request: Resources): (r: seq<WorkerSlot>)
    requires i < |slots|
  {
    slots[i := slots[i].(used := slots[i].used.Minus(request))]
  }

  /** A non-zero request that fits the free space can be charged: no `expect` fails. */
  lemma FittingRequestCanBeCharged(slots: seq<WorkerSlot>, i: SlotIndex, request: Resources)
    requires Sound(slots) && request != ZERO && FitsNow(slots, request, i)
    ensures slots[i].used.FitsWithin(slots[i].capacity)
    ensures slots[i].used.Plus(request).FitsWithin(slots[i].capacity)
    ensures slots[i].used.Plus(request).InWidth()
    ensures Sound(Charge(slots, i, request))
    ensures Uncharge(Charge(slots, i, request), i, request) == slots
    ensures Charge(slots, i, request)[i].Free().Plus(request) == slots[i].Free()
  {
    assert slots[i].capacity != ZERO;
    assert slots[i].(used := slots[i].used.Plus(request).Minus(request)) == slots[i];
  }

  /** What first fit accepts, allocation refuses exactly when nothing was asked for and the slot still holds work while
      it drains: the caller's assertion that a fitting request can be allocated then fails. */
  lemma AllocationFailsIff(slots: seq<WorkerSlot>, i: SlotIndex, request: Resources)
    requires Sound(slots) && FitsNow(slots, request, i)
    ensures !slots[i].used.Plus(request).FitsWithin(slots[i].capacity) <==>
              request == ZERO && slots[i].capacity == ZERO && slots[i].used != ZERO
  {
    if request != ZERO { FittingRequestCanBeCharged(slots, i, request); }
  }

  /** A draining slot that still holds work: first fit offers it to a job that asks for nothing, allocation refuses. */
  lemma AllocationFailsWhileDraining()
    ensures var slots := [WorkerSlot(ZERO, Vec(1, 0, 0))];
            && Sound(slots) && FirstFit(slots, ZERO) == Some(0)
            && !slots[0].used.Plus(ZERO).FitsWithin(slots[0].capacity)
  {
    var slots := [WorkerSlot(ZERO, Vec(1, 0, 0))];
    assert FitsNow(slots, ZERO, 0);
    AllocationFailsIff(slots, 0, ZERO);
  }

  class SlotInventory {
    var slots: seq<WorkerSlot>

    constructor Empty()
      ensures slots == []
    {
      slots := [];
    }

    /** Succeeds exactly when the slot exists and stays within its capacity. */
    method TryAllocate(slot: SlotIndex, request: Resources) returns (r: Result)
      modifies this
      ensures r.Ok? <==>
                slot < old(|slots|) && old(slots)[slot].used.Plus(request).FitsWithin(old(slots)[slot].capacity)
      ensures r.Ok? ==> slots == Charge(old(slots), slot, request)
      ensures r.Err? ==> slots == old(slots)
    {
      if slot >= |slots| { return Err(NoSuchSlot(slot)); }
      var next := CheckedAdd(slots[slot].used, request);
      if next == None || !next.value.FitsWithin(slots[slot].capacity) { return Err(WouldExceed(slot)); }
      slots := slots[slot := slots[slot].(used := next.value)];
      return Ok;
    }

    method Release(slot: SlotIndex, request: Resources) returns (r: Result)
      modifies this
      ensures r.Ok? <==> slot < old(|slots|)
      ensures slots == if slot < old(|slots|) then Uncharge(old(slots), slot, request) else old(slots)
    {
      if slot >= |slots| { return Err(NoSuchSlot(slot)); }
      slots := slots[slot := slots[slot].(used := slots[slot].used.Minus(request))];
      return Ok;
    }

    method PushSlot(capacity: Resources) returns (slot: SlotIndex)
      modifies this
      ensures slot == old(|slots|) && slots == old(slots) + [WorkerSlot(capacity, ZERO)]
    {
      slots := slots + [WorkerSlot(capacity, ZERO)];
      slot := |slots| - 1;
    }

    method SetCapacity(slot: SlotIndex, capacity: Resources)
      modifies this
      ensures slots == if slot < old(|slots|) then old(slots)[slot := old(slots)[slot].(capacity := capacity)]
                else old(slots)
    {
      if slot < |slots| { slots := slots[slot := slots[slot].(capacity := capacity)]; }
    }

    method ClearAllocation(slot: SlotIndex)
      modifies this
      ensures slots == if slot < old(|slots|) then old(slots)[slot := old(slots)[slot].(used := ZERO)] else old(slots)
    {
      if slot < |slots| { slots := slots[slot := slots[slot].(used := ZERO)]; }
    }
  }
}
