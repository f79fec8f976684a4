/** When can a job that does not fit start? The head's reservation under EASY backfill. */
module Reservation {
  import opened Domain
  import opened Slots

  /** What a running job holds, where, and until when at the latest. */
  datatype RunningJob = RunningJob(job: JobId, slot: SlotIndex, resources: Resources, endsAt: u64)

  // ---- specification ----

  /** Everything on `slot` that has ended by `t`, without machine bounds. */
  function Ended(running: seq<RunningJob>, slot: SlotIndex, t: u64): Vec {
    if running == [] then ZERO
    else
      var rest := Ended(running[..|running| - 1], slot, t);
      var r := running[|running| - 1];
      if r.slot == slot && r.endsAt <= t then rest.Plus(r.resources) else rest
  }

  /** On `slot`, free space plus everything ended by `t` holds the request. */
  predicate HoldsBy(request: Resources, slots: seq<WorkerSlot>, running: seq<RunningJob>, slot: SlotIndex, t: u64) {
    && slot < |slots|
    && request.FitsWithin(slots[slot].capacity)
    && request.FitsWithin(slots[slot].Free().Plus(Ended(running, slot, t)))
  }

  /** `running[i]`'s deadline is a time at which its slot holds the request. */
  predicate Opens(request: Resources, slots: seq<WorkerSlot>, running: seq<RunningJob>, i: int) {
    0 <= i < |running| && HoldsBy(request, slots, running, running[i].slot, running[i].endsAt)
  }

  ghost predicate SomeFitsNow(slots: seq<WorkerSlot>, request: Resources) {
    exists i :: FitsNow(slots, request, i)
  }

  /** `r` is exactly the earliest start: now, else the least opening deadline, else never. */
  ghost predicate IsReservation(request: Resources, slots: seq<WorkerSlot>, running: seq<RunningJob>, now: u64,
                                r: Option<u64>) {
    if SomeFitsNow(slots, request) then r == Some(now)
    else match r
      case None => forall i :: !Opens(request, slots, running, i)
      case Some(t) =>
        && (exists i :: Opens(request, slots, running, i) && running[i].endsAt == t)
        && (forall i :: Opens(request, slots, running, i) ==> t <= running[i].endsAt)
  }

  /** The request can start no later than `limit`. */
  ghost predicate MetBy(request: Resources, slots: seq<WorkerSlot>, running: seq<RunningJob>, now: u64, limit: u64) {
    || (SomeFitsNow(slots, request) && now <= limit)
    || (!SomeFitsNow(slots, request) && exists i :: Opens(request, slots, running, i) && running[i].endsAt <= limit)
  }

  lemma ReservationMetBy(request: Resources, slots: seq<WorkerSlot>, running: seq<RunningJob>, now: u64, r: Option<u64>,
                         limit: u64)
    requires IsReservation(request, slots, running, now, r)
    ensures (r.Some? && r.value <= limit) <==> MetBy(request, slots, running, now, limit)
  {}

  lemma {:induction false} EndedMonotone(running: seq<RunningJob>, slot: SlotIndex, t: u64, t': u64)
    requires t <= t'
    ensures Ended(running, slot, t).FitsWithin(Ended(running, slot, t'))
  {
    if running != [] { EndedMonotone(running[..|running| - 1], slot, t, t'); }
  }

  lemma {:induction false} EndedConcat(a: seq<RunningJob>, b: seq<RunningJob>, slot: SlotIndex, t: u64)
    ensures Ended(a + b, slot, t) == Ended(a, slot, t).Plus(Ended(b, slot, t))
    decreases |b|
  {
    if b == [] {
      assert a + b == a;
    } else {
      var ab, n := a + b, |a + b| - 1;
      assert ab[..n] == a + b[..|b| - 1] && ab[n] == b[|b| - 1];
      EndedConcat(a, b[..|b| - 1], slot, t);
    }
  }

  /** Adding running jobs while the inventory stays fixed never makes the reservation later. */
  lemma MoreRunningNeverLater(request: Resources, slots: seq<WorkerSlot>, a: seq<RunningJob>, b: seq<RunningJob>,
                              c: seq<RunningJob>, now: u64, limit: u64)
    requires MetBy(request, slots, a + c, now, limit)
    ensures MetBy(request, slots, a + b + c, now, limit)
  {
    if !SomeFitsNow(slots, request) {
      var i :| Opens(request, slots, a + c, i) && (a + c)[i].endsAt <= limit;
      var r := (a + c)[i];
      var k := if i < |a| then i else i + |b|;
      assert (a + b + c)[k] == r;
      EndedConcat(a, c, r.slot, r.endsAt);
      EndedConcat(a + b, c, r.slot, r.endsAt);
      EndedConcat(a, b, r.slot, r.endsAt);
      assert Opens(request, slots, a + b + c, k);
    }
  }

  /** Starting a job that ends by the limit, on a slot where it fits, keeps the limit. */
  lemma ShortJobKeepsLimit(request: Resources, slots: seq<WorkerSlot>, running: seq<RunningJob>, now: u64, limit: u64,
                           extra: RunningJob)
    requires Sound(slots) && extra.resources != ZERO
    requires FitsNow(slots, extra.resources, extra.slot)
    requires extra.endsAt <= limit
    requires MetBy(request, slots, running, now, limit)
    ensures slots[extra.slot].used.Plus(extra.resources).InWidth()
    ensures MetBy(request, Charge(slots, extra.slot, extra.resources), running + [extra], now, limit)
  {
    FittingRequestCanBeCharged(slots, extra.slot, extra.resources);
    var slots' := Charge(slots, extra.slot, extra.resources);
    var running' := running + [extra];
    var last := |running|;
    assert running'[last] == extra;
    if SomeFitsNow(slots, request) {
      var s :| FitsNow(slots, request, s);
      if s != extra.slot {
        assert FitsNow(slots', request, s);
      } else {
        EndedConcat(running, [extra], s, extra.endsAt);
        assert Opens(request, slots', running', last);
      }
    } else {
      forall i | 0 <= i < |slots'| ensures !FitsNow(slots', request, i) {
        assert !FitsNow(slots, request, i);
      }
      var i :| Opens(request, slots, running, i) && running[i].endsAt <= limit;
      var s, t := running[i].slot, running[i].endsAt;
      assert running'[i] == running[i];
      EndedConcat(running, [extra], s, t);
      if s == extra.slot && t < extra.endsAt {
        EndedMonotone(running, s, t, extra.endsAt);
        EndedConcat(running, [extra], s, extra.endsAt);
        assert Opens(request, slots', running', last);
      } else {
        assert Opens(request, slots', running', i);
      }
    }
  }

  // ---- one slot's completions, sorted ----

  datatype Completion = Completion(at: u64, resources: Resources)

  function Total(cs: seq<Completion>): Vec {
    if cs == [] then ZERO else Total(cs[..|cs| - 1]).Plus(cs[|cs| - 1].resources)
  }

  function TotalBy(cs: seq<Completion>, t: u64): Vec {
    if cs == [] then ZERO
    else
      var rest := TotalBy(cs[..|cs| - 1], t);
      var c := cs[|cs| - 1];
      if c.at <= t then rest.Plus(c.resources) else rest
  }

  function CompletionsOn(running: seq<RunningJob>, slot: SlotIndex): seq<Completion> {
    if running == [] then []
    else
      var rest := CompletionsOn(running[..|running| - 1], slot);
      var r := running[|running| - 1];
      if r.slot == slot then rest + [Completion(r.endsAt, r.resources)] else rest
  }

  lemma {:induction false} CompletionsTotal(running: seq<RunningJob>, slot: SlotIndex, t: u64)
    ensures TotalBy(CompletionsOn(running, slot), t) == Ended(running, slot, t)
  {
    if running != [] { CompletionsTotal(running[..|running| - 1], slot, t); }
  }

  lemma {:induction false} ListedIsRunning(running: seq<RunningJob>, slot: SlotIndex, c: Completion) returns (i: nat)
    requires c in CompletionsOn(running, slot)
    ensures i < |running| && running[i].slot == slot && running[i].endsAt == c.at
  {
    i := |running| - 1;
    var front := running[..i];
    if c in CompletionsOn(front, slot) {
      i := ListedIsRunning(front, slot, c);
    }
  }

  predicate SortedByDeadline(cs: seq<Completion>) {
    forall i, j :: 0 <= i < j < |cs| ==> cs[i].at <= cs[j].at
  }

  function InsertByDeadline(cs: seq<Completion>, c: Completion): seq<Completion> {
    if cs == [] || cs[|cs| - 1].at <= c.at then cs + [c]
    else InsertByDeadline(cs[..|cs| - 1], c) + [cs[|cs| - 1]]
  }

  lemma {:induction false} InsertKeepsOrder(cs: seq<Completion>, c: Completion, bound: u64)
    requires SortedByDeadline(cs) && c.at <= bound && forall i :: 0 <= i < |cs| ==> cs[i].at <= bound
    ensures var r := InsertByDeadline(cs, c); SortedByDeadline(r) && forall i :: 0 <= i < |r| ==> r[i].at <= bound
  {
    if !(cs == [] || cs[|cs| - 1].at <= c.at) {
      InsertKeepsOrder(cs[..|cs| - 1], c, cs[|cs| - 1].at);
    }
  }

  lemma {:induction false} InsertKeepsElements(cs: seq<Completion>, c: Completion)
    ensures multiset(InsertByDeadline(cs, c)) == multiset(cs) + multiset{c}
  {
    if !(cs == [] || cs[|cs| - 1].at <= c.at) {
      var n := |cs| - 1;
      InsertKeepsElements(cs[..n], c);
      assert cs == cs[..n] + [cs[n]];
    }
  }

  function Adds(total: Vec, c: Completion, t: u64): Vec { if c.at <= t then total.Plus(c.resources) else total }

  lemma TotalOneMore(cs: seq<Completion>, c: Completion, t: u64)
    ensures TotalBy(cs + [c], t) == Adds(TotalBy(cs, t), c, t)
  {
    var more := cs + [c];
    assert more[..|more| - 1] == cs && more[|more| - 1] == c;
  }

  lemma AddsCommute(total: Vec, a: Completion, b: Completion, t: u64)
    ensures Adds(Adds(total, a, t), b, t) == Adds(Adds(total, b, t), a, t)
  {}

  lemma {:induction false} InsertKeepsTotal(cs: seq<Completion>, c: Completion, t: u64)
    ensures TotalBy(InsertByDeadline(cs, c), t) == Adds(TotalBy(cs, t), c, t)
  {
    if cs == [] || cs[|cs| - 1].at <= c.at {
      TotalOneMore(cs, c, t);
    } else {
      var front, last := cs[..|cs| - 1], cs[|cs| - 1];
      InsertKeepsTotal(front, c, t);
      TotalOneMore(InsertByDeadline(front, c), last, t);
      AddsCommute(TotalBy(front, t), c, last, t);
    }
  }

  lemma SortedOneMore(cs: seq<Completion>, sorted: seq<Completion>, c: Completion)
    requires SortedByDeadline(sorted) && multiset(sorted) == multiset(cs)
    requires forall t: u64 :: TotalBy(sorted, t) == TotalBy(cs, t)
    ensures SortedByDeadline(InsertByDeadline(sorted, c)) && multiset(InsertByDeadline(sorted, c)) == multiset(cs + [c])
    ensures forall t: u64 :: TotalBy(InsertByDeadline(sorted, c), t) == TotalBy(cs + [c], t)
  {
    InsertKeepsOrder(sorted, c, U64_MAX);
    InsertKeepsElements(sorted, c);
    forall t: u64 ensures TotalBy(InsertByDeadline(sorted, c), t) == TotalBy(cs + [c], t) {
      InsertKeepsTotal(sorted, c, t);
      TotalOneMore(cs, c, t);
    }
  }

  /** The source's `sort_unstable_by_key`; order among equal deadlines is irrelevant. */
  method SortCompletions(cs: seq<Completion>) returns (sorted: seq<Completion>)
    ensures SortedByDeadline(sorted)
    ensures multiset(sorted) == multiset(cs)
    ensures forall t: u64 :: TotalBy(sorted, t) == TotalBy(cs, t)
  {
    sorted := [];
    for i := 0 to |cs|
      invariant SortedByDeadline(sorted)
      invariant multiset(sorted) == multiset(cs[..i])
      invariant forall t: u64 :: TotalBy(sorted, t) == TotalBy(cs[..i], t)
    {
      assert cs[..i + 1] == cs[..i] + [cs[i]];
      SortedOneMore(cs[..i], sorted, cs[i]);
      sorted := InsertByDeadline(sorted, cs[i]);
    }
    assert cs[..|cs|] == cs;
  }

  /** A prefix of entries all ending by `t` frees no more than everything ending by `t`. */
  lemma {:induction false} PrefixWithin(cs: seq<Completion>, k: nat, t: u64)
    requires k <= |cs| && forall j :: 0 <= j < k ==> cs[j].at <= t
    ensures Total(cs[..k]).FitsWithin(TotalBy(cs, t))
    decreases |cs|
  {
    if cs != [] {
      var n := |cs| - 1;
      if k <= n {
        PrefixWithin(cs[..n], k, t);
        assert cs[..n][..k] == cs[..k];
      } else {
        PrefixWithin(cs[..n], n, t);
        assert cs[..k] == cs && cs[..n][..n] == cs[..n];
      }
    }
  }

  /** If everything past a prefix ends after `t`, the prefix frees at least what has ended. */
  lemma {:induction false} PrefixCovers(cs: seq<Completion>, k: nat, t: u64)
    requires k <= |cs| && forall j :: k <= j < |cs| ==> t < cs[j].at
    ensures TotalBy(cs, t).FitsWithin(Total(cs[..k]))
    decreases |cs|
  {
    if cs != [] {
      var n := |cs| - 1;
      if k <= n {
        PrefixCovers(cs[..n], k, t);
        assert cs[..n][..k] == cs[..k];
      } else {
        PrefixCovers(cs[..n], n, t);
        assert cs[..k] == cs && cs[..n][..n] == cs[..n];
      }
    }
  }

  /** What the first `k` completions do not make room for and the next one does fits from the next one's deadline on. */
  lemma FitsFrom(request: Resources, free: Resources, completions: seq<Completion>, sorted: seq<Completion>, k: nat)
    requires k < |sorted| && SortedByDeadline(sorted) && multiset(sorted) == multiset(completions)
    requires forall t: u64 :: TotalBy(sorted, t) == TotalBy(completions, t)
    requires !request.FitsWithin(free.Plus(Total(sorted[..k])))
      && request.FitsWithin(free.Plus(Total(sorted[..k + 1])))
    ensures sorted[k] in completions && request.FitsWithin(free.Plus(TotalBy(completions, sorted[k].at)))
    ensures forall t: u64 :: request.FitsWithin(free.Plus(TotalBy(completions, t))) ==> sorted[k].at <= t
  {
    PrefixWithin(sorted, k + 1, sorted[k].at);
    forall t: u64 | t < sorted[k].at ensures !request.FitsWithin(free.Plus(TotalBy(completions, t))) {
      PrefixCovers(sorted, k, t);
    }
    assert sorted[k] in multiset(sorted);
  }

  /** Replays one slot's completions until the request fits; saturation never changes the answer. */
  method EarliestOnSlot(request: Resources, slot: WorkerSlot, completions: seq<Completion>) returns (r: Option<u64>)
    requires !request.FitsWithin(slot.Free())
    ensures r == None ==> forall t: u64 :: !request.FitsWithin(slot.Free().Plus(TotalBy(completions, t)))
    ensures r.Some? ==> exists c :: c in completions && c.at == r.value
    ensures r.Some? ==> request.FitsWithin(slot.Free().Plus(TotalBy(completions, r.value)))
    ensures r.Some? ==> forall t: u64 :: request.FitsWithin(slot.Free().Plus(TotalBy(completions, t))) ==> r.value <= t
  {
    var sorted := SortCompletions(completions);
    var free := slot.Free();
    for k := 0 to |sorted|
      invariant free == Clamp(slot.Free().Plus(Total(sorted[..k])))
      invariant !request.FitsWithin(slot.Free().Plus(Total(sorted[..k])))
    {
      assert sorted[..k + 1][..k] == sorted[..k];
      free := SaturatingAdd(free, sorted[k].resources);
      if request.FitsWithin(free) {
        FitsFrom(request, slot.Free(), completions, sorted, k);
        return Some(sorted[k].at);
      }
    }
    forall t: u64 ensures !request.FitsWithin(slot.Free().Plus(TotalBy(completions, t))) {
      PrefixCovers(sorted, |sorted|, t);
    }
    return None;
  }

  /** `best` is the least opening deadline among the first `n` slots. */
  ghost predicate LeastBelow(request: Resources, slots: seq<WorkerSlot>, running: seq<RunningJob>, n: nat,
                             best: Option<u64>) {
    match best
    case None => forall i :: Opens(request, slots, running, i) ==> n <= running[i].slot
    case Some(t) =>
      && (exists i :: Opens(request, slots, running, i) && running[i].endsAt == t)
      && (forall i :: Opens(request, slots, running, i) && running[i].slot < n ==> t <= running[i].endsAt)
  }

  lemma LeastBelowStep(request: Resources, slots: seq<WorkerSlot>, running: seq<RunningJob>, n: nat, best: Option<u64>,
                       here: Option<u64>, best': Option<u64>)
    requires LeastBelow(request, slots, running, n, best)
    requires here == None ==> forall i :: Opens(request, slots, running, i) ==> running[i].slot != n
    requires here.Some? ==>
      && (exists i :: Opens(request, slots, running, i) && running[i].endsAt == here.value)
      && (forall i :: Opens(request, slots, running, i) && running[i].slot == n ==> here.value <= running[i].endsAt)
    requires best' == if here == None then best else if best == None then here else Some(Min(best.value, here.value))
    ensures LeastBelow(request, slots, running, n + 1, best')
  {}

  /** What a slot's own answer says about the openings on it. */
  lemma SlotAnswer(request: Resources, slots: seq<WorkerSlot>, running: seq<RunningJob>, n: SlotIndex,
                   here: Option<u64>)
    requires n < |slots| && request.FitsWithin(slots[n].capacity)
    requires var cs := CompletionsOn(running, n);
             && (here == None ==> forall t: u64 :: !request.FitsWithin(slots[n].Free().Plus(TotalBy(cs, t))))
             && (here.Some? ==>
                   && (exists c :: c in cs && c.at == here.value)
                   && request.FitsWithin(slots[n].Free().Plus(TotalBy(cs, here.value)))
                   && forall t: u64 :: request.FitsWithin(slots[n].Free().Plus(TotalBy(cs, t))) ==> here.value <= t)
    ensures here == None ==> forall i :: Opens(request, slots, running, i) ==> running[i].slot != n
    ensures here.Some? ==> exists i :: Opens(request, slots, running, i) && running[i].endsAt == here.value
    ensures here.Some? ==> forall i :: Opens(request, slots, running, i) && running[i].slot == n ==>
              here.value <= running[i].endsAt
  {
    var cs := CompletionsOn(running, n);
    forall t: u64 ensures TotalBy(cs, t) == Ended(running, n, t) { CompletionsTotal(running, n, t); }
    if here.Some? {
      var c :| c in cs && c.at == here.value;
      var i := ListedIsRunning(running, n, c);
      assert Opens(request, slots, running, i);
    }
  }

  /** The earliest moment at which some slot has room, taking every deadline as a finish. */
  method ReservationTime(request: Resources, slots: seq<WorkerSlot>, running: seq<RunningJob>,
                         now: u64) returns (r: Option<u64>)
    ensures IsReservation(request, slots, running, now, r)
  {
    var earliest: Option<u64> := None;
    for n := 0 to |slots|
      invariant forall i :: 0 <= i < n ==> !FitsNow(slots, request, i)
      invariant LeastBelow(request, slots, running, n, earliest)
    {
      if !request.FitsWithin(slots[n].capacity) {
        LeastBelowStep(request, slots, running, n, earliest, None, earliest);
        continue;
      }
      if request.FitsWithin(slots[n].Free()) {
        assert FitsNow(slots, request, n);
        return Some(now);
      }
      var here := EarliestOnSlot(request, slots[n], CompletionsOn(running, n));
      SlotAnswer(request, slots, running, n, here);
      var next := if here == None then earliest else if earliest == None then here
          else Some(Min(earliest.value, here.value));
      LeastBelowStep(request, slots, running, n, earliest, here, next);
      earliest := next;
    }
    return earliest;
  }
}
