/** Which job sits on which worker: the running set, the jobs held for reconciliation, and the slots' books. */
module Bindings {
  import opened Domain
  import Arenas
  import opened Eligibility
  import opened Slots
  import opened Reservation
  import opened Placement
  import opened Lifecycle

  /** Everything the engine knows about workers. A slot without a name is detached. */
  datatype Binding = Binding(slots: seq<WorkerSlot>, names: seq<Option<string>>, running: seq<RunningJob>,
                             held: seq<JobId>)

  function RunIds(running: seq<RunningJob>): (r: seq<JobId>)
    ensures |r| == |running| && forall i :: 0 <= i < |r| ==> r[i] == running[i].job
  {
    seq(|running|, i requires 0 <= i < |running| => running[i].job)
  }

  /** What the running set holds on one slot. */
  function UsedBy(running: seq<RunningJob>, slot: SlotIndex): Vec {
    if running == [] then ZERO
    else
      var r := running[|running| - 1];
      var rest := UsedBy(running[..|running| - 1], slot);
      if r.slot == slot then rest.Plus(r.resources) else rest
  }

  predicate OnCpu(jobs: Jobs, id: JobId) { Arenas.Live(jobs, id) && StateOf(jobs, id).HoldsCpu() }

  /** The engine knows where `id` is: on a worker, or waited for. */
  predicate Located(b: Binding, id: JobId) { id in RunIds(b.running) || id in b.held }

  /** Running and held jobs, each once, hold cpu. */
  ghost predicate HoldersOk(jobs: Jobs, b: Binding) {
    && NoDuplicates(RunIds(b.running)) && NoDuplicates(b.held)
    && (forall x :: x in b.held ==> x !in RunIds(b.running))
    && (forall x :: Located(b, x) ==> OnCpu(jobs, x))
  }

  /** Jobs that hold cpu on no worker the engine knows of. */
  ghost function Strays(jobs: Jobs, b: Binding): iset<JobId> { Unlocated(jobs, b.running, b.held) }

  ghost function Unlocated(jobs: Jobs, running: seq<RunningJob>, held: seq<JobId>): iset<JobId> {
    iset x | OnCpu(jobs, x) && x !in RunIds(running) && x !in held
  }

  /** Every entry names a real slot and holds exactly its job's request. */
  ghost predicate EntriesOk(jobs: Jobs, b: Binding) {
    forall i :: 0 <= i < |b.running| ==>
      && b.running[i].slot < |b.slots| && Arenas.Live(jobs, b.running[i].job)
      && b.running[i].resources == Arenas.Value(jobs, b.running[i].job).request
  }

  /** Every slot's allocation is the sum of what runs on it. */
  ghost predicate Allocated(b: Binding) {
    forall s :: 0 <= s < |b.slots| ==> b.slots[s].used == UsedBy(b.running, s)
  }

  /** A detached slot has no capacity and nothing on it, so it can be handed to the next worker. */
  ghost predicate VacanciesOk(b: Binding) {
    |b.names| == |b.slots| && forall s :: 0 <= s < |b.slots| && b.names[s] == None ==>
        b.slots[s] == WorkerSlot(ZERO, ZERO)
  }

  /** A held job is still Running: evictions are planned only for jobs on a worker. */
  ghost predicate HeldOk(jobs: Jobs, b: Binding) { forall x :: x in b.held ==> In(jobs, x, JobState.Running) }

  ghost predicate BindOk(jobs: Jobs, b: Binding) {
    HoldersOk(jobs, b) && HeldOk(jobs, b) && EntriesOk(jobs, b) && Allocated(b) && VacanciesOk(b) && Sound(b.slots)
  }

  // ---- removing one element by swapping in the last ----

  function SwapRemove<T>(s: seq<T>, i: nat): (r: seq<T>)
    requires i < |s|
    ensures |r| == |s| - 1
  {
    s[i := s[|s| - 1]][..|s| - 1]
  }

  lemma SwapRemoveMembers(s: seq<JobId>, i: nat)
    requires i < |s| && NoDuplicates(s)
    ensures NoDuplicates(SwapRemove(s, i))
    ensures forall x :: x in SwapRemove(s, i) <==> x in s && x != s[i]
  {
    var r, n := SwapRemove(s, i), |s| - 1;
    forall k | 0 <= k < n ensures r[k] == s[if k == i then n else k] {}
    forall x | x in s && x != s[i] ensures x in r {
      var k :| 0 <= k < |s| && s[k] == x;
      assert r[if k == n then i else k] == x;
    }
  }

  lemma RunIdsSwapRemove(running: seq<RunningJob>, i: nat)
    requires i < |running|
    ensures RunIds(SwapRemove(running, i)) == SwapRemove(RunIds(running), i)
  {}

  lemma {:induction false} UsedByUpdate(running: seq<RunningJob>, i: nat, r: RunningJob, slot: SlotIndex)
    requires i < |running|
    ensures UsedBy(running[i := r], slot).Plus(Share(running[i], slot)) == UsedBy(running, slot).Plus(Share(r, slot))
  {
    var n := |running| - 1;
    var after := running[i := r];
    if i < n {
      UsedByUpdate(running[..n], i, r, slot);
      assert after[..n] == running[..n][i := r];
    } else {
      assert after[..n] == running[..n];
    }
  }

  function Share(r: RunningJob, slot: SlotIndex): Vec { if r.slot == slot then r.resources else ZERO }

  lemma UsedBySwapRemove(running: seq<RunningJob>, i: nat, slot: SlotIndex)
    requires i < |running|
    ensures UsedBy(SwapRemove(running, i), slot).Plus(Share(running[i], slot)) == UsedBy(running, slot)
  {
    var n := |running| - 1;
    var last := running[n];
    UsedByUpdate(running, i, last, slot);
    var swapped := running[i := last];
    assert swapped[..n] == SwapRemove(running, i) && swapped[n] == last;
  }

  lemma UsedBySnoc(running: seq<RunningJob>, r: RunningJob, slot: SlotIndex)
    ensures UsedBy(running + [r], slot) == UsedBy(running, slot).Plus(Share(r, slot))
  {
    var more := running + [r];
    assert more[..|more| - 1] == running;
  }

  // ---- how the arena may move underneath ----

  /** Whoever is not in `off` keeps its cpu; nobody's request changed, and nobody was told to stop. */
  ghost predicate Spares(jobs: Jobs, jobs': Jobs, off: set<JobId>) {
    && (forall x :: OnCpu(jobs, x) && x !in off ==> OnCpu(jobs', x))
    && (forall x :: In(jobs, x, JobState.Running) && OnCpu(jobs', x) ==> In(jobs', x, JobState.Running))
    && (forall x :: Arenas.Live(jobs, x) && OnCpu(jobs', x) ==>
        Arenas.Value(jobs', x).request == Arenas.Value(jobs, x).request)
  }

  /** Exactly `off` stopped and `on` started holding cpu. */
  ghost predicate Shifts(jobs: Jobs, jobs': Jobs, off: set<JobId>, on: set<JobId>) {
    Spares(jobs, jobs', off) && forall x :: OnCpu(jobs', x) <==> (OnCpu(jobs, x) && x !in off) || x in on
  }

  /** Entries that stay bound stay right. */
  lemma EntryKept(jobs: Jobs, jobs': Jobs, off: set<JobId>, b: Binding, r: RunningJob)
    requires HoldersOk(jobs, b) && EntriesOk(jobs, b) && Spares(jobs, jobs', off)
    requires r in b.running && r.job !in off
    ensures r.slot < |b.slots| && Arenas.Live(jobs', r.job) && r.resources == Arenas.Value(jobs', r.job).request
  {
    var i :| 0 <= i < |b.running| && b.running[i] == r;
    assert RunIds(b.running)[i] == r.job;
    assert Located(b, r.job);
  }

  // ---- taking a job off its worker ----

  /** The entry at `pos` is gone and its slot has its capacity back. */
  ghost predicate Releases(b: Binding, pos: nat, b': Binding) {
    && pos < |b.running| && b.running[pos].slot < |b.slots|
    && b' == b.(running := SwapRemove(b.running, pos),
        slots := Uncharge(b.slots, b.running[pos].slot, b.running[pos].resources))
  }

  ghost predicate Unholds(b: Binding, pos: nat, b': Binding) {
    pos < |b.held| && b' == b.(held := SwapRemove(b.held, pos))
  }

  lemma SlotAfterRelease(slots: seq<WorkerSlot>, from: SlotIndex, amount: Resources, s: SlotIndex)
    requires from < |slots| && s < |slots|
    ensures var after := Uncharge(slots, from, amount)[s];
            && after.capacity == slots[s].capacity
            && after.used == slots[s].used.Minus(if s == from then amount else ZERO)
            && after.used.FitsWithin(slots[s].used)
  {}

  lemma UsedAfterRelease(running: seq<RunningJob>, pos: nat, s: SlotIndex)
    requires pos < |running|
    ensures UsedBy(SwapRemove(running, pos), s) == UsedBy(running, s).Minus(Share(running[pos], s))
  {
    UsedBySwapRemove(running, pos, s);
    var rest := UsedBy(SwapRemove(running, pos), s);
    MovedShare(UsedBy(running, s), rest, Share(running[pos], s), ZERO, rest);
  }

  lemma ReleasedSlots(b: Binding, pos: nat, b': Binding)
    requires Releases(b, pos, b') && Allocated(b) && Sound(b.slots) && VacanciesOk(b)
    ensures Allocated(b') && Sound(b'.slots) && VacanciesOk(b')
  {
    var slots, slots' := b.slots, b'.slots;
    forall s: nat | s < |slots'|
      ensures slots'[s].used == UsedBy(b'.running, s) && slots'[s].capacity == slots[s].capacity
        && slots'[s].used.FitsWithin(slots[s].used)
    {
      SlotAfterRelease(slots, b.running[pos].slot, b.running[pos].resources, s);
      UsedAfterRelease(b.running, pos, s);
    }
  }

  lemma ReleaseKeeps(jobs: Jobs, jobs': Jobs, b: Binding, pos: nat, b': Binding)
    requires BindOk(jobs, b) && Releases(b, pos, b') && Spares(jobs, jobs', {b.running[pos].job})
    ensures BindOk(jobs', b')
  {
    ReleasedSlots(b, pos, b');
    var id := b.running[pos].job;
    RunIdsSwapRemove(b.running, pos);
    SwapRemoveMembers(RunIds(b.running), pos);
    assert id in RunIds(b.running);
    forall i | 0 <= i < |b'.running|
      ensures b'.running[i].slot < |b'.slots| && Arenas.Live(jobs', b'.running[i].job)
              && b'.running[i].resources == Arenas.Value(jobs', b'.running[i].job).request
    {
      assert RunIds(b'.running)[i] in RunIds(b'.running);
      assert b'.running[i] in b.running;
      EntryKept(jobs, jobs', {id}, b, b'.running[i]);
    }
  }

  lemma UnholdKeeps(jobs: Jobs, jobs': Jobs, b: Binding, pos: nat, b': Binding)
    requires BindOk(jobs, b) && Unholds(b, pos, b') && Spares(jobs, jobs', {b.held[pos]})
    ensures BindOk(jobs', b')
  {
    SwapRemoveMembers(b.held, pos);
    assert b.held[pos] in b.held;
    forall i | 0 <= i < |b.running|
      ensures Arenas.Live(jobs', b.running[i].job)
        && b.running[i].resources == Arenas.Value(jobs', b.running[i].job).request
    {
      assert RunIds(b.running)[i] in RunIds(b.running);
      EntryKept(jobs, jobs', {b.held[pos]}, b, b.running[i]);
    }
  }

  /** Nobody whose place is known stopped holding cpu. */
  lemma StayKeeps(jobs: Jobs, jobs': Jobs, b: Binding, off: set<JobId>)
    requires BindOk(jobs, b) && Spares(jobs, jobs', off) && forall x :: x in off ==> !Located(b, x)
    ensures BindOk(jobs', b)
  {
    forall i | 0 <= i < |b.running|
      ensures Arenas.Live(jobs', b.running[i].job)
        && b.running[i].resources == Arenas.Value(jobs', b.running[i].job).request
    {
      assert RunIds(b.running)[i] in RunIds(b.running);
      EntryKept(jobs, jobs', off, b, b.running[i]);
    }
  }

  /** Telling a bound job to stop leaves it bound. */
  lemma PreemptStays(jobs: Jobs, b: Binding, id: JobId)
    requires |jobs.slots| <= U32_MAX && BindOk(jobs, b) && id in RunIds(b.running)
    ensures BindOk(AfterMove(jobs, id, JobState.Preempted), b)
  {
    var jobs' := AfterMove(jobs, id, JobState.Preempted);
    assert OnCpu(jobs, id);
    forall x ensures OnCpu(jobs', x) <==> OnCpu(jobs, x) {}
    forall x | x in b.held ensures In(jobs', x, JobState.Running) { assert x != id; }
  }

  // ---- putting jobs on workers ----

  lemma {:induction false} UsedByConcat(a: seq<RunningJob>, b: seq<RunningJob>, slot: SlotIndex)
    ensures UsedBy(a + b, slot) == UsedBy(a, slot).Plus(UsedBy(b, slot))
    decreases |b|
  {
    if b == [] {
      assert a + b == a;
    } else {
      var n := |b| - 1;
      UsedByConcat(a, b[..n], slot);
      var ab := a + b;
      assert ab[..|ab| - 1] == a + b[..n] && ab[|ab| - 1] == b[n];
    }
  }

  lemma UsedByOne(r: RunningJob, slot: SlotIndex)
    ensures UsedBy([r], slot) == Share(r, slot)
  {
    assert [r][..0] == [];
  }

  lemma UsedByStarted(ds: seq<Decision>, jobs: Jobs, now: u64, slot: SlotIndex)
    requires AllLive(ds, jobs) && ds != []
    ensures AllLive(ds[1..], jobs)
    ensures UsedBy(Started(ds, jobs, now), slot)
         == Share(StartedOne(ds[0], Arenas.Value(jobs, ds[0].job), now),
                  slot).Plus(UsedBy(Started(ds[1..], jobs, now), slot))
  {
    var first, rest := [StartedOne(ds[0], Arenas.Value(jobs, ds[0].job), now)], Started(ds[1..], jobs, now);
    assert Started(ds, jobs, now) == first + rest;
    UsedByConcat(first, rest, slot);
    UsedByOne(first[0], slot);
  }

  lemma SlotAfterCharge(slots: seq<WorkerSlot>, to: SlotIndex, amount: Resources, s: SlotIndex)
    requires to < |slots| && s < |slots| && slots[to].used.Plus(amount).InWidth()
    ensures var after := Charge(slots, to, amount)[s];
            after.capacity == slots[s].capacity && after.used == slots[s].used.Plus(if s == to then amount else ZERO)
  {}

  /** `after` is `slots` with, slot by slot, `extra`'s resources added. */
  ghost predicate Grown(slots: seq<WorkerSlot>, extra: seq<RunningJob>, after: seq<WorkerSlot>) {
    && |after| == |slots|
    && forall s: nat :: s < |slots| ==>
        after[s].capacity == slots[s].capacity && after[s].used == slots[s].used.Plus(UsedBy(extra, s))
  }

  /** Charging decisions in order adds, slot by slot, exactly what they start. */
  lemma {:induction false} ChargeAllUsed(slots: seq<WorkerSlot>, ds: seq<Decision>, jobs: Jobs, now: u64,
      slots': seq<WorkerSlot>)
    requires AllLive(ds, jobs) && ChargeAll(slots, ds, jobs) == Some(slots')
    ensures Grown(slots, Started(ds, jobs, now), slots')
    ensures forall d :: d in ds ==> d.slot < |slots|
    decreases |ds|
  {
    if ds != [] {
      var d, job := ds[0], Arenas.Value(jobs, ds[0].job);
      var mid := Charge(slots, d.slot, job.request);
      ChargeAllUsed(mid, ds[1..], jobs, now, slots');
      forall s: nat | s < |slots|
        ensures slots'[s].capacity == slots[s].capacity
          && slots'[s].used == slots[s].used.Plus(UsedBy(Started(ds, jobs, now), s))
      {
        SlotAfterCharge(slots, d.slot, job.request, s);
        UsedByStarted(ds, jobs, now, s);
        PlusAssociates(slots[s].used, Share(StartedOne(d, job, now), s), UsedBy(Started(ds[1..], jobs, now), s));
      }
    }
  }

  lemma PlusAssociates(a: Vec, b: Vec, c: Vec)
    ensures a.Plus(b).Plus(c) == a.Plus(b.Plus(c))
  {}

  /** `ds` were placed at `now`: charged in order, and each has its entry in the running set. */
  ghost predicate Starts(b: Binding, jobs: Jobs, ds: seq<Decision>, now: u64, b': Binding) {
    && AllLive(ds, jobs)
    && ChargeAll(b.slots, ds, jobs) == Some(b'.slots)
    && b'.running == b.running + Started(ds, jobs, now)
    && b'.names == b.names && b'.held == b.held
  }

  lemma RunIdsConcat(a: seq<RunningJob>, b: seq<RunningJob>)
    ensures RunIds(a + b) == RunIds(a) + RunIds(b)
  {}

  lemma {:induction false} UsedByNone(running: seq<RunningJob>, slot: SlotIndex)
    requires forall i :: 0 <= i < |running| ==> running[i].slot != slot
    ensures UsedBy(running, slot) == ZERO
  {
    if running != [] { UsedByNone(running[..|running| - 1], slot); }
  }

  predicate Asks(ds: seq<Decision>, jobs: Jobs)
    requires AllLive(ds, jobs)
  {
    forall i :: 0 <= i < |ds| ==> Arenas.Value(jobs, ds[i].job).request != ZERO
  }

  /** Nothing that asks for something is ever placed on a slot without capacity. */
  lemma {:induction false} NothingOnZero(slots: seq<WorkerSlot>, ds: seq<Decision>, jobs: Jobs, i: nat)
    requires AllLive(ds, jobs) && ChargeAll(slots, ds, jobs).Some? && Asks(ds, jobs) && i < |ds|
    ensures ds[i].slot < |slots| && slots[ds[i].slot].capacity != ZERO
    decreases |ds|
  {
    if i > 0 {
      var mid := Charge(slots, ds[0].slot, Arenas.Value(jobs, ds[0].job).request);
      assert ds[1..][i - 1] == ds[i];
      NothingOnZero(mid, ds[1..], jobs, i - 1);
    }
  }

  lemma StartedSlots(jobs: Jobs, b: Binding, ds: seq<Decision>, now: u64, b': Binding)
    requires Allocated(b) && VacanciesOk(b) && Starts(b, jobs, ds, now, b') && Asks(ds, jobs)
    ensures Allocated(b') && VacanciesOk(b')
  {
    var started := Started(ds, jobs, now);
    ChargeAllUsed(b.slots, ds, jobs, now, b'.slots);
    forall s | 0 <= s < |b'.slots| ensures b'.slots[s].used == UsedBy(b'.running, s) {
      UsedByConcat(b.running, started, s);
    }
    forall s | 0 <= s < |b'.slots| && b'.names[s] == None ensures b'.slots[s] == WorkerSlot(ZERO, ZERO) {
      forall i | 0 <= i < |started| ensures started[i].slot != s { NothingOnZero(b.slots, ds, jobs, i); }
      UsedByNone(started, s);
    }
  }

  lemma StartedHolders(jobs: Jobs, jobs': Jobs, b: Binding, ds: seq<Decision>, now: u64, b': Binding)
    requires HoldersOk(jobs, b) && Starts(b, jobs, ds, now, b')
    requires NoDuplicates(JobsOf(ds)) && (forall x :: x in JobsOf(ds) ==> !OnCpu(jobs, x))
    requires Shifts(jobs, jobs', {}, Elements(JobsOf(ds)))
    ensures HoldersOk(jobs', b')
  {
    var started := Started(ds, jobs, now);
    RunIdsConcat(b.running, started);
    assert RunIds(started) == JobsOf(ds);
    var was, ids := RunIds(b.running), JobsOf(ds);
    forall x ensures x in RunIds(b'.running) <==> x in was || x in ids {}
    forall x | x in ids ensures !Located(b, x) { assert !OnCpu(jobs, x); }
    forall i, j | 0 <= i < j < |was + ids| ensures (was + ids)[i] != (was + ids)[j] {
      assert j >= |was| ==> ids[j - |was|] in ids;
      assert i < |was| ==> was[i] in was;
    }
  }

  lemma StartedEntries(jobs: Jobs, jobs': Jobs, b: Binding, ds: seq<Decision>, now: u64, b': Binding)
    requires HoldersOk(jobs, b) && EntriesOk(jobs, b) && Starts(b, jobs, ds, now, b')
    requires Shifts(jobs, jobs', {}, Elements(JobsOf(ds)))
    ensures EntriesOk(jobs', b')
  {
    var started, n := Started(ds, jobs, now), |b.running|;
    ChargeAllUsed(b.slots, ds, jobs, now, b'.slots);
    forall i | 0 <= i < |b'.running|
      ensures b'.running[i].slot < |b'.slots| && Arenas.Live(jobs', b'.running[i].job)
              && b'.running[i].resources == Arenas.Value(jobs', b'.running[i].job).request
    {
      if i < n {
        EntryKept(jobs, jobs', {}, b, b.running[i]);
      } else {
        var d := ds[i - n];
        assert d in ds && JobsOf(ds)[i - n] == d.job && d.job in JobsOf(ds);
        assert OnCpu(jobs', d.job);
      }
    }
  }

  lemma StartKeeps(jobs: Jobs, jobs': Jobs, b: Binding, ds: seq<Decision>, now: u64, b': Binding)
    requires BindOk(jobs, b) && Starts(b, jobs, ds, now, b') && Sound(b'.slots) && Asks(ds, jobs)
    requires NoDuplicates(JobsOf(ds)) && (forall x :: x in JobsOf(ds) ==> !OnCpu(jobs, x))
    requires Shifts(jobs, jobs', {}, Elements(JobsOf(ds)))
    ensures BindOk(jobs', b')
  {
    StartedSlots(jobs, b, ds, now, b');
    StartedHolders(jobs, jobs', b, ds, now, b');
    StartedEntries(jobs, jobs', b, ds, now, b');
  }

  // ---- reconnecting workers ----

  /** A held job is adopted onto `slot` without a dispatch. */
  ghost predicate Adopts(jobs: Jobs, b: Binding, pos: nat, slot: SlotIndex, ends: u64, b': Binding)
    requires pos < |b.held| && Arenas.Live(jobs, b.held[pos])
  {
    var request := Arenas.Value(jobs, b.held[pos]).request;
    && slot < |b.slots| && b.slots[slot].used.Plus(request).InWidth()
    && b.slots[slot].used.Plus(request).FitsWithin(b.slots[slot].capacity)
    && b' == b.(held := SwapRemove(b.held, pos), running := b.running + [RunningJob(b.held[pos], slot, request, ends)],
                slots := Charge(b.slots, slot, request))
  }

  lemma AdoptKeeps(jobs: Jobs, b: Binding, pos: nat, slot: SlotIndex, ends: u64, b': Binding)
    requires BindOk(jobs, b) && pos < |b.held| && Arenas.Live(jobs, b.held[pos]) && Adopts(jobs, b, pos, slot, ends, b')
    requires b.names[slot].Some?
    ensures BindOk(jobs, b')
  {
    var id := b.held[pos];
    var entry := b'.running[|b.running|];
    SwapRemoveMembers(b.held, pos);
    RunIdsConcat(b.running, [entry]);
    assert RunIds([entry]) == [id];
    assert id in b.held;
    forall s | 0 <= s < |b'.slots| ensures b'.slots[s].used
        == UsedBy(b'.running, s) { UsedBySnoc(b.running, entry, s); }
    forall x ensures x in RunIds(b'.running) <==> x in RunIds(b.running) || x == id {}
  }

  /** A bound job follows its worker to another slot. */
  ghost predicate Rebinds(b: Binding, pos: nat, slot: SlotIndex, b': Binding) {
    && pos < |b.running| && b.running[pos].slot < |b.slots| && slot < |b.slots|
    && var r := b.running[pos];
       var freed := Uncharge(b.slots, r.slot, r.resources);
       && freed[slot].used.Plus(r.resources).InWidth()
           && freed[slot].used.Plus(r.resources).FitsWithin(freed[slot].capacity)
       && b' == b.(running := b.running[pos := r.(slot := slot)], slots := Charge(freed, slot, r.resources))
  }

  /** One slot after a job moved from `from` to `to`. */
  lemma SlotAfterMove(slots: seq<WorkerSlot>, from: SlotIndex, to: SlotIndex, amount: Resources, s: SlotIndex)
    requires from < |slots| && to < |slots| && s < |slots|
      && Uncharge(slots, from, amount)[to].used.Plus(amount).InWidth()
    ensures var after := Charge(Uncharge(slots, from, amount), to, amount)[s];
            && after.capacity == slots[s].capacity
            && after.used == slots[s].used.Minus(if s == from then amount else ZERO).Plus(if s == to then amount
                else ZERO)
  {}

  lemma UsedAfterMove(running: seq<RunningJob>, pos: nat, slot: SlotIndex, s: SlotIndex)
    requires pos < |running|
    ensures var r := running[pos];
            && Share(r, s).FitsWithin(UsedBy(running, s))
            && UsedBy(running[pos := r.(slot := slot)], s)
                == UsedBy(running, s).Minus(Share(r, s)).Plus(Share(r.(slot := slot), s))
  {
    var r := running[pos];
    UsedBySwapRemove(running, pos, s);
    UsedByUpdate(running, pos, r.(slot := slot), s);
    MovedShare(UsedBy(running, s), UsedBy(SwapRemove(running, pos), s), Share(r, s), Share(r.(slot := slot), s),
               UsedBy(running[pos := r.(slot := slot)], s));
  }

  lemma MovedShare(used: Vec, rest: Vec, share: Vec, other: Vec, sum: Vec)
    requires used == rest.Plus(share) && sum.Plus(share) == used.Plus(other)
    ensures used.Minus(share) == rest && sum == rest.Plus(other)
    ensures share == ZERO ==> used == rest
  {}

  /** The sums follow the slots, and a slot nobody moved to stays within its capacity. */
  lemma RebindSlots(slots: seq<WorkerSlot>, running: seq<RunningJob>, pos: nat, slot: SlotIndex,
                    slots': seq<WorkerSlot>, running': seq<RunningJob>, s: SlotIndex)
    requires pos < |running| && running[pos].slot < |slots| && slot < |slots| && s < |slots|
    requires running' == running[pos := running[pos].(slot := slot)]
    requires var freed := Uncharge(slots, running[pos].slot, running[pos].resources);
             freed[slot].used.Plus(running[pos].resources).InWidth()
                 && slots' == Charge(freed, slot, running[pos].resources)
    requires slots[s].used == UsedBy(running, s)
    ensures |slots'| == |slots| && slots'[s].capacity == slots[s].capacity
    ensures slots'[s].used == UsedBy(running', s)
    ensures s != slot ==> slots'[s].used.FitsWithin(slots[s].used)
  {
    SlotAfterMove(slots, running[pos].slot, slot, running[pos].resources, s);
    UsedAfterMove(running, pos, slot, s);
  }

  lemma RebindKeeps(jobs: Jobs, b: Binding, pos: nat, slot: SlotIndex, b': Binding)
    requires BindOk(jobs, b) && Rebinds(b, pos, slot, b') && b.names[slot].Some?
    ensures BindOk(jobs, b')
  {
    assert RunIds(b'.running) == RunIds(b.running);
    RebindBooks(b, pos, slot, b');
  }

  lemma RebindBooks(b: Binding, pos: nat, slot: SlotIndex, b': Binding)
    requires Rebinds(b, pos, slot, b') && Allocated(b) && VacanciesOk(b) && Sound(b.slots) && b.names[slot].Some?
    ensures Allocated(b') && VacanciesOk(b') && Sound(b'.slots)
  {
    var slots, slots' := b.slots, b'.slots;
    forall s: nat | s < |slots'|
      ensures slots'[s].used == UsedBy(b'.running, s) && slots'[s].capacity == slots[s].capacity
      ensures s != slot ==> slots'[s].used.FitsWithin(slots[s].used)
    {
      RebindSlots(slots, b.running, pos, slot, slots', b'.running, s);
    }
    assert slots'[slot].used.FitsWithin(slots'[slot].capacity);
  }

  // ---- workers coming and going ----

  function OthersThan(running: seq<RunningJob>, slot: SlotIndex): seq<RunningJob> {
    if running == [] then []
    else
      var rest, r := OthersThan(running[..|running| - 1], slot), running[|running| - 1];
      if r.slot != slot then rest + [r] else rest
  }

  function JobsOn(running: seq<RunningJob>, slot: SlotIndex): seq<JobId> {
    if running == [] then []
    else
      var rest, r := JobsOn(running[..|running| - 1], slot), running[|running| - 1];
      if r.slot == slot then rest + [r.job] else rest
  }

  /** Filtering out one slot's entries: what stays, what leaves, and the sums on every other slot. */
  lemma {:induction false} FilterSlot(running: seq<RunningJob>, slot: SlotIndex)
    requires NoDuplicates(RunIds(running))
    ensures NoDuplicates(JobsOn(running, slot)) && NoDuplicates(RunIds(OthersThan(running, slot)))
    ensures forall r :: r in OthersThan(running, slot) ==> r in running && r.slot != slot
    ensures forall x :: x in RunIds(running) <==> x in JobsOn(running, slot) || x in RunIds(OthersThan(running, slot))
    ensures forall x :: x in JobsOn(running, slot) ==> x !in RunIds(OthersThan(running, slot))
    ensures forall s :: s != slot ==> UsedBy(OthersThan(running, slot), s) == UsedBy(running, s)
  {
    if running != [] {
      var n := |running| - 1;
      var front, r, ids := running[..n], running[n], RunIds(running);
      assert RunIds(front) == ids[..n];
      FilterSlot(front, slot);
      assert ids[n] !in ids[..n] by {
        forall i | 0 <= i < n ensures ids[i] != ids[n] {}
      }
      assert forall x :: x in ids <==> x in ids[..n] || x == r.job;
      if r.slot != slot {
        RunIdsConcat(OthersThan(front, slot), [r]);
        assert RunIds([r]) == [r.job];
        forall s | s != slot ensures UsedBy(OthersThan(running, slot), s) == UsedBy(running, s) {
          UsedBySnoc(OthersThan(front, slot), r, s);
        }
      }
    }
  }

  /** The worker on `slot` is gone: its entries are dropped, its slot zeroed and detached. */
  ghost predicate Detaches(b: Binding, slot: SlotIndex, b': Binding) {
    && b'.running == OthersThan(b.running, slot) && b'.held == b.held
    && (if slot < |b.slots| then b'.slots == b.slots[slot := WorkerSlot(ZERO, ZERO)] else b'.slots == b.slots)
    && (if slot < |b.names| then b'.names == b.names[slot := None] else b'.names == b.names)
  }

  lemma DetachKeeps(jobs: Jobs, jobs': Jobs, b: Binding, slot: SlotIndex, b': Binding)
    requires BindOk(jobs, b) && Detaches(b, slot, b') && Spares(jobs, jobs', Elements(JobsOn(b.running, slot)))
    ensures BindOk(jobs', b')
  {
    FilterSlot(b.running, slot);
    DetachedSlots(b, slot, b');
    forall i | 0 <= i < |b'.running|
      ensures b'.running[i].slot < |b'.slots| && Arenas.Live(jobs', b'.running[i].job)
              && b'.running[i].resources == Arenas.Value(jobs', b'.running[i].job).request
    {
      assert b'.running[i] in b'.running;
      assert RunIds(b'.running)[i] in RunIds(b'.running);
      EntryKept(jobs, jobs', Elements(JobsOn(b.running, slot)), b, b'.running[i]);
    }
  }

  lemma DetachedSlots(b: Binding, slot: SlotIndex, b': Binding)
    requires NoDuplicates(RunIds(b.running)) && Allocated(b) && VacanciesOk(b) && Sound(b.slots)
      && Detaches(b, slot, b')
    ensures Allocated(b') && VacanciesOk(b') && Sound(b'.slots)
  {
    FilterSlot(b.running, slot);
    forall s | 0 <= s < |b'.slots| ensures b'.slots[s].used == UsedBy(b'.running, s) {
      if s == slot {
        forall i | 0 <= i < |b'.running| ensures b'.running[i].slot != slot { assert b'.running[i] in b'.running; }
        UsedByNone(b'.running, s);
      }
    }
  }

  /** No further work on `slot`; what runs there stays. */
  lemma DrainKeeps(jobs: Jobs, b: Binding, slot: SlotIndex)
    requires BindOk(jobs, b) && slot < |b.slots|
    ensures BindOk(jobs, b.(slots := b.slots[slot := b.slots[slot].(capacity := ZERO)]))
  {}

  /** A detached slot is handed to the next worker. */
  lemma ReuseKeeps(jobs: Jobs, b: Binding, slot: SlotIndex, capacity: Resources, name: string)
    requires BindOk(jobs, b) && slot < |b.slots| && b.names[slot] == None
    ensures BindOk(jobs, b.(slots := b.slots[slot := b.slots[slot].(capacity := capacity)],
                            names := b.names[slot := Some(name)]))
  {}

  /** A slot appended for a new worker. */
  lemma AttachKeeps(jobs: Jobs, b: Binding, capacity: Resources, name: string)
    requires BindOk(jobs, b)
    ensures BindOk(jobs, b.(slots := b.slots + [WorkerSlot(capacity, ZERO)], names := b.names + [Some(name)]))
  {
    forall i | 0 <= i < |b.running| ensures b.running[i].slot != |b.slots| {}
    UsedByNone(b.running, |b.slots|);
  }
}
