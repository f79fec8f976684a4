/** One scheduling cycle on values: what it dispatches, what it returns, and what the head is promised. */
module Cycles {
  import opened Domain
  import Arenas
  import opened Decay
  import opened Eligibility
  import opened Heaps
  import opened Slots
  import opened Reservation
  import opened Placement
  import opened ReadySets
  import opened FairShares
  import opened Lifecycle
  import opened Transitions

  // ---- dispatching several jobs ----

  /** Every job of `ids` is Running. */
  ghost function AfterDispatch(jobs: Jobs, ids: seq<JobId>): Jobs
    requires Small(jobs)
  {
    Restate(jobs, All(Elements(ids), JobState.Running))
  }

  ghost predicate AllReady(jobs: Jobs, ids: seq<JobId>) {
    NoDuplicates(ids) && forall x :: x in ids ==> In(jobs, x, JobState.Ready)
  }

  /** Running one more job is one more move. */
  lemma DispatchOneMore(jobs: Jobs, front: seq<JobId>, x: JobId)
    requires Small(jobs) && x !in front
    ensures AfterDispatch(jobs, front + [x]) == AfterMove(AfterDispatch(jobs, front), x, JobState.Running)
    ensures Arenas.Live(jobs, x) ==> Arenas.Value(AfterDispatch(jobs, front), x) == Arenas.Value(jobs, x)
  {
    var before, now := Elements(front), Elements(front + [x]);
    assert now == before + {x};
    RestateTwice(jobs, All(before, JobState.Running), map[x := JobState.Running]);
    assert All(before, JobState.Running) + map[x := JobState.Running] == All(now, JobState.Running);
  }

  lemma DispatchNone(jobs: Jobs)
    requires Small(jobs)
    ensures AfterDispatch(jobs, []) == jobs
  {
    assert All(Elements([]), JobState.Running) == map[];
    RestateNothing(jobs);
  }

  lemma SplitReady(jobs: Jobs, ids: seq<JobId>)
    requires AllReady(jobs, ids) && ids != []
    ensures var front, x := ids[..|ids| - 1], ids[|ids| - 1];
            ids == front + [x] && AllReady(jobs, front) && In(jobs, x, JobState.Ready) && x !in front
  {
    var n := |ids| - 1;
    forall j | 0 <= j < n ensures ids[j] != ids[n] {}
  }

  /** The ledgers once each of `ids`, in order, has taken its cpu. */
  function TakenAll(table: seq<nat>, ledgers: seq<Ledger>, jobs: Jobs, ids: seq<JobId>, now: u64,
                    quantum: nat): seq<Ledger>
    requires IsTable(table) && quantum > 0
  {
    if ids == [] then ledgers
    else
      var front, x := ids[..|ids| - 1], ids[|ids| - 1];
      var taken := TakenAll(table, ledgers, jobs, front, now, quantum);
      if Arenas.Live(jobs, x) then TakenFor(table, taken, Arenas.Value(jobs, x), now, quantum) else taken
  }

  function TakenFor(table: seq<nat>, ledgers: seq<Ledger>, job: Job, now: u64, quantum: nat): seq<Ledger>
    requires IsTable(table) && quantum > 0
  {
    Taken(table, ledgers, job.account, job.request.cpu, now, quantum)
  }

  lemma DispatchStore(jobs: Jobs, ids: seq<JobId>)
    requires StoreOk(jobs)
    ensures StoreOk(AfterDispatch(jobs, ids))
  {
    RestateStore(jobs, All(Elements(ids), JobState.Running));
  }

  /** Each account is charged for exactly the jobs that started. */
  lemma {:induction false} DispatchCharge(table: seq<nat>, ledgers: seq<Ledger>, jobs: Jobs, ids: seq<JobId>, now: u64,
      quantum: nat)
    requires IsTable(table) && quantum > 0
    requires StoreOk(jobs) && ChargeOk(jobs, ledgers) && AllReady(jobs, ids)
    ensures ChargeOk(AfterDispatch(jobs, ids), TakenAll(table, ledgers, jobs, ids, now, quantum))
    decreases |ids|
  {
    if ids == [] {
      DispatchNone(jobs);
    } else {
      SplitReady(jobs, ids);
      var front, x := ids[..|ids| - 1], ids[|ids| - 1];
      DispatchCharge(table, ledgers, jobs, front, now, quantum);
      DispatchStore(jobs, front);
      DispatchOneMore(jobs, front, x);
      var taken := TakenAll(table, ledgers, jobs, front, now, quantum);
      var job := Arenas.Value(jobs, x);
      TakenMoves(table, taken, job.account, job.request.cpu, now, quantum);
      ChargeMoves(AfterDispatch(jobs, front), x, JobState.Running, taken, TakenFor(table, taken, job, now, quantum));
    }
  }

  lemma {:induction false} DispatchCore(jobs: Jobs, done: set<JobId>, t: Tables, ids: seq<JobId>)
    requires CoreOk(jobs, done, t) && AllReady(jobs, ids)
    ensures CoreOk(AfterDispatch(jobs, ids), done, t)
    decreases |ids|
  {
    if ids == [] {
      DispatchNone(jobs);
    } else {
      SplitReady(jobs, ids);
      var front, x := ids[..|ids| - 1], ids[|ids| - 1];
      DispatchCore(jobs, done, t, front);
      DispatchOneMore(jobs, front, x);
      OpenMove(AfterDispatch(jobs, front), done, t, x, JobState.Running);
    }
  }

  // ---- the ready set over a cycle ----

  /** The queue lost exactly the dispatched jobs. */
  ghost predicate Departed(q: Queues, ids: set<JobId>, q': Queues) {
    forall c: PriorityClass, x :: Queued(q', c, x) <==> Queued(q, c, x) && x !in ids
  }

  lemma DispatchQueue(jobs: Jobs, q: Queues, ids: seq<JobId>, q': Queues)
    requires Small(jobs) && QueueOk(jobs, q) && Departed(q, Elements(ids), q')
    ensures QueueOk(AfterDispatch(jobs, ids), q')
  {
    var after := AfterDispatch(jobs, ids);
    forall c: PriorityClass, x
      ensures Queued(q', c, x) <==> In(after, x, JobState.Ready) && Arenas.Value(after, x).priorityClass == c
    {
      assert Queued(q, c, x) <==> In(jobs, x, JobState.Ready) && Arenas.Value(jobs, x).priorityClass == c;
    }
  }

  /** Refreshing brings every ledger up to date and moves no charge. */
  ghost predicate Refreshed(ledgers: seq<Ledger>, ledgers': seq<Ledger>) {
    |ledgers'| == |ledgers| && forall a :: 0 <= a < |ledgers| ==> ledgers'[a].runningCpu == ledgers[a].runningCpu
  }

  lemma RefreshKeepsCharge(jobs: Jobs, ledgers: seq<Ledger>, ledgers': seq<Ledger>)
    requires ChargeOk(jobs, ledgers) && Refreshed(ledgers, ledgers')
    ensures ChargeOk(jobs, ledgers')
  {}

  /** A whole cycle's effect on the books: some Ready jobs run, the rest are back in the queue. */
  ghost predicate CycleFacts(table: seq<nat>, jobs: Jobs, b: Books, current: seq<Ledger>, ids: seq<JobId>, now: u64,
                             quantum: nat, jobs': Jobs, b': Books) {
    && Small(jobs) && IsTable(table) && quantum > 0
    && AllReady(jobs, ids)
    && jobs' == AfterDispatch(jobs, ids)
    && b'.done == b.done && b'.tables == b.tables
    && Departed(b.queues, Elements(ids), b'.queues)
    && Refreshed(b.ledgers, current) && b'.ledgers == TakenAll(table, current, jobs, ids, now, quantum)
  }

  /** Sealed: `Unlocked` in scope unfolds it. */
  ghost predicate CycleStep(table: seq<nat>, jobs: Jobs, b: Books, current: seq<Ledger>, ids: seq<JobId>, now: u64,
                            quantum: nat, jobs': Jobs, b': Books) {
    forall k: int :: Unlocked(k) ==> CycleFacts(table, jobs, b, current, ids, now, quantum, jobs', b')
  }

  lemma CycleKeeps(table: seq<nat>, jobs: Jobs, b: Books, current: seq<Ledger>, ids: seq<JobId>, now: u64, quantum: nat,
                   jobs': Jobs, b': Books)
    requires Inv(jobs, b)
    requires CycleStep(table, jobs, b, current, ids, now, quantum, jobs', b')
    ensures Inv(jobs', b') && b'.done == b.done && AllReady(jobs, ids) && jobs' == AfterDispatch(jobs, ids)
  {
    assert Unlocked(0);
    DispatchCore(jobs, b.done, b.tables, ids);
    DispatchQueue(jobs, b.queues, ids, b'.queues);
    RefreshKeepsCharge(jobs, b.ledgers, current);
    DispatchCharge(table, current, jobs, ids, now, quantum);
  }

  // ---- the candidates ----

  function EntryJobs(entries: seq<ReadyEntry>): (r: seq<JobId>)
    ensures |r| == |entries| && forall i :: 0 <= i < |r| ==> r[i] == entries[i].job
  {
    seq(|entries|, i requires 0 <= i < |entries| => entries[i].job)
  }

  /** Distinct Ready jobs, each filed under its own class. */
  ghost predicate Candidates(entries: seq<ReadyEntry>, jobs: Jobs) {
    && AllReady(jobs, EntryJobs(entries))
    && forall i :: 0 <= i < |entries| ==>
        Arenas.Live(jobs, entries[i].job) && entries[i].cls == Arenas.Value(jobs, entries[i].job).priorityClass
  }

  ghost predicate Ordered(entries: seq<ReadyEntry>) {
    forall i, j :: 0 <= i < j < |entries| ==> Precedes(entries[i], entries[j])
  }

  /** What was drained is a list of candidates, and the queue lost exactly those. */
  lemma DrainedCandidates(jobs: Jobs, before: Queues, out: seq<ReadyEntry>, after: Queues)
    requires QueueOk(jobs, before) && Drains(before, out, after)
    ensures Candidates(out, jobs) && Departed(before, Elements(EntryJobs(out)), after)
  {
    DrainsPartition(before, out, after);
    DrainsTop(before, out, after);
    forall i | 0 <= i < |out| ensures In(jobs, out[i].job, JobState.Ready)
        && out[i].cls == Arenas.Value(jobs, out[i].job).priorityClass {
      assert out[i] in out && InQueues(before, out[i]);
      assert Queued(before, out[i].cls, out[i].job);
    }
    DrainedDistinct(jobs, before, out);
    DrainedDeparted(jobs, before, out, after);
  }

  lemma DrainedDistinct(jobs: Jobs, before: Queues, out: seq<ReadyEntry>)
    requires Ordered(out) && forall e :: e in out ==> InQueues(before, e)
    requires forall i :: 0 <= i < |out| ==>
              Arenas.Live(jobs, out[i].job) && out[i].cls == Arenas.Value(jobs, out[i].job).priorityClass
    ensures NoDuplicates(EntryJobs(out))
  {
    var ids := EntryJobs(out);
    forall i, j | 0 <= i < j < |ids| ensures ids[i] != ids[j] {
      assert out[i] in out && out[j] in out;
      assert Precedes(out[i], out[j]);
    }
  }

  lemma DrainedDeparted(jobs: Jobs, before: Queues, out: seq<ReadyEntry>, after: Queues)
    requires forall e :: InQueues(before, e) <==> e in out || InQueues(after, e)
    requires forall i :: 0 <= i < |out| ==> out[i].job !in after.Of(out[i].cls)
    requires QueueOk(jobs, before)
    ensures Departed(before, Elements(EntryJobs(out)), after)
  {
    var ids := EntryJobs(out);
    forall c: PriorityClass, x ensures Queued(after, c, x) <==> Queued(before, c, x) && x !in Elements(ids) {
      if Queued(after, c, x) {
        assert InQueues(before, ReadyEntry(c, x, after.Of(c)[x]));
        assert Queued(before, c, x);
        if x in ids {
          var i :| 0 <= i < |out| && out[i].job == x;
          assert out[i] in out && InQueues(before, out[i]);
          assert Queued(before, out[i].cls, x);
        }
      }
      if Queued(before, c, x) {
        var e := ReadyEntry(c, x, before.Of(c)[x]);
        assert InQueues(before, e);
        if e in out {
          var i :| 0 <= i < |out| && out[i] == e;
          assert ids[i] == x;
        }
      }
    }
  }

  // ---- sorting ----

  lemma PrecedesTotal(a: ReadyEntry, b: ReadyEntry)
    requires a.job != b.job
    ensures Precedes(a, b) || Precedes(b, a)
  {
    RankIsOrder(a.score, a.job, b.score, b.job);
    RankIsOrder(b.score, b.job, a.score, a.job);
  }

  lemma PrecedesTransitive(a: ReadyEntry, b: ReadyEntry, c: ReadyEntry)
    requires Precedes(a, b) && Precedes(b, c)
    ensures Precedes(a, c)
  {
    RankIsOrder(a.score, a.job, b.score, b.job);
    RankIsOrder(b.score, b.job, c.score, c.job);
    RankIsOrder(a.score, a.job, c.score, c.job);
  }

  /** Files one entry into an ordered list. */
  method Place(sorted: seq<ReadyEntry>, e: ReadyEntry) returns (out: seq<ReadyEntry>)
    requires Ordered(sorted) && forall x :: x in sorted ==> x.job != e.job
    ensures Ordered(out) && |out| == |sorted| + 1
    ensures forall x :: x in out <==> x == e || x in sorted
  {
    var k: nat := 0;
    while k < |sorted| && Precedes(sorted[k], e)
      invariant k <= |sorted| && forall i :: 0 <= i < k ==> Precedes(sorted[i], e)
    {
      k := k + 1;
    }
    out := sorted[..k] + [e] + sorted[k..];
    PlacedOrdered(sorted, e, k);
    forall x ensures x in out <==> x == e || x in sorted {
      assert sorted == sorted[..k] + sorted[k..];
    }
  }

  lemma PlacedOrdered(sorted: seq<ReadyEntry>, e: ReadyEntry, k: nat)
    requires k <= |sorted| && Ordered(sorted) && forall x :: x in sorted ==> x.job != e.job
    requires forall i :: 0 <= i < k ==> Precedes(sorted[i], e)
    requires k < |sorted| ==> !Precedes(sorted[k], e)
    ensures Ordered(sorted[..k] + [e] + sorted[k..])
  {
    forall j | k <= j < |sorted| ensures Precedes(e, sorted[j]) {
      assert sorted[k] in sorted;
      PrecedesTotal(e, sorted[k]);
      if k < j { PrecedesTransitive(e, sorted[k], sorted[j]); }
    }
    var out := sorted[..k] + [e] + sorted[k..];
    forall i, j | 0 <= i < j < |out| ensures Precedes(out[i], out[j]) {
      assert out[i] == if i < k then sorted[i] else if i == k then e else sorted[i - 1];
      assert out[j] == if j < k then sorted[j] else if j == k then e else sorted[j - 1];
    }
  }

  /** Highest class first, then score, then age; the order is strict because no job appears twice. */
  method SortCandidates(entries: seq<ReadyEntry>) returns (out: seq<ReadyEntry>)
    requires NoDuplicates(EntryJobs(entries))
    ensures Ordered(out) && |out| == |entries|
    ensures forall x :: x in out <==> x in entries
  {
    out := [];
    for k := 0 to |entries|
      invariant Ordered(out) && |out| == k && forall x :: x in out <==> x in entries[..k]
    {
      var e := entries[k];
      forall x | x in out ensures x.job != e.job {
        var i :| 0 <= i < k && entries[i] == x;
        assert EntryJobs(entries)[i] != EntryJobs(entries)[k];
      }
      out := Place(out, e);
      assert entries[..k + 1] == entries[..k] + [e];
    }
    assert entries[..|entries|] == entries;
  }

  /** A strictly ordered rearrangement of candidates is a list of the same candidates. */
  lemma SortedCandidates(entries: seq<ReadyEntry>, out: seq<ReadyEntry>, jobs: Jobs)
    requires Candidates(entries, jobs) && Ordered(out) && forall x :: x in out <==> x in entries
    ensures Candidates(out, jobs) && Elements(EntryJobs(out)) == Elements(EntryJobs(entries))
  {
    var ids, was := EntryJobs(out), EntryJobs(entries);
    forall i | 0 <= i < |out| ensures Arenas.Live(jobs, out[i].job)
        && out[i].cls == Arenas.Value(jobs, out[i].job).priorityClass
                                   && In(jobs, ids[i], JobState.Ready) && ids[i] in was {
      assert out[i] in entries;
      var k :| 0 <= k < |entries| && entries[k] == out[i];
      assert was[k] == ids[i] && was[k] in was;
    }
    forall i, j | 0 <= i < j < |ids| ensures ids[i] != ids[j] { SortedDistinct(entries, out, i, j); }
    forall x | x in was ensures x in ids {
      var k :| 0 <= k < |was| && was[k] == x;
      assert entries[k] in out;
      var i :| 0 <= i < |out| && out[i] == entries[k];
      assert ids[i] == x;
    }
  }

  lemma SortedDistinct(entries: seq<ReadyEntry>, out: seq<ReadyEntry>, i: nat, j: nat)
    requires NoDuplicates(EntryJobs(entries)) && Ordered(out) && forall x :: x in out <==> x in entries
    requires i < j < |out|
    ensures out[i].job != out[j].job
  {
    assert out[i] in entries && out[j] in entries;
    var a :| 0 <= a < |entries| && entries[a] == out[i];
    var b :| 0 <= b < |entries| && entries[b] == out[j];
    assert Precedes(out[i], out[j]);
    assert a != b ==> EntryJobs(entries)[a] != EntryJobs(entries)[b];
  }

  // ---- what the cycle plans ----

  /** Everything one cycle decided. */
  datatype Plan = Plan(candidates: seq<ReadyEntry>, packed: seq<Decision>, mid: seq<WorkerSlot>, head: Option<nat>,
                       exhausted: bool,
                       reservation: Option<u64>, filled: seq<Decision>) {

    function Decisions(): seq<Decision> { packed + filled }

    ghost predicate HasHead(jobs: Jobs) {
      head.Some? && head.value < |candidates| && Arenas.Live(jobs, candidates[head.value].job)
    }

    ghost function HeadRequest(jobs: Jobs): Resources
      requires HasHead(jobs)
    {
      Arenas.Value(jobs, candidates[head.value].job).request
    }
  }

  /** Pack, then backfill around the head: exactly these decisions, and the inventory they leave. */
  ghost predicate Planned(p: Plan, jobs: Jobs, slots: seq<WorkerSlot>, running: seq<RunningJob>, now: u64,
                          budget: Budget, slots': seq<WorkerSlot>) {
    && Sound(slots) && NonZero(p.candidates, jobs)
    && PackRun(p.packed, p.mid, p.head, p.exhausted) == PackFrom(p.candidates, jobs, slots, budget, 0, 0, 0)
    && Sound(p.mid)
    && (p.head == None ==> p.reservation == None)
    && (p.reservation == None ==> p.filled == [] && slots' == p.mid)
    && (p.head.Some? ==> p.HasHead(jobs) && IsReservation(p.HeadRequest(jobs), p.mid, running, now, p.reservation))
    && (p.reservation.Some? ==>
          BackfillRun(p.filled, slots')
              == BackfillFrom(Gap(p.candidates, jobs, p.HeadRequest(jobs), running, now, p.reservation.value, budget),
              p.mid, p.head.value + 1, 0, 0))
  }

  lemma {:induction false} ChargeAllConcat(slots: seq<WorkerSlot>, a: seq<Decision>, b: seq<Decision>, jobs: Jobs,
      mid: seq<WorkerSlot>)
    requires AllLive(a, jobs) && AllLive(b, jobs) && ChargeAll(slots, a, jobs) == Some(mid)
    ensures AllLive(a + b, jobs) && ChargeAll(slots, a + b, jobs) == ChargeAll(mid, b, jobs)
    decreases |a|
  {
    var ab := a + b;
    if a == [] {
      assert ab == b;
    } else {
      assert ab[0] == a[0] && ab[1..] == a[1..] + b;
      var request := Arenas.Value(jobs, a[0].job).request;
      ChargeAllConcat(Charge(slots, a[0].slot, request), a[1..], b, jobs, mid);
    }
  }

  /** The inventory grew by exactly the requests of what was dispatched, each fitting when its turn came. */
  lemma PlanCharges(p: Plan, jobs: Jobs, slots: seq<WorkerSlot>, running: seq<RunningJob>, now: u64, budget: Budget,
                    slots': seq<WorkerSlot>)
    requires var planned := Planned(p, jobs, slots, running, now, budget, slots'); planned
    ensures Sound(slots') && AllLive(p.Decisions(), jobs) && ChargeAll(slots, p.Decisions(), jobs) == Some(slots')
  {
    PackCharges(p.candidates, jobs, slots, budget, 0, 0, 0);
    if p.reservation.Some? {
      BackfillCharges(Gap(p.candidates, jobs, p.HeadRequest(jobs), running, now, p.reservation.value, budget), p.mid,
                      p.head.value + 1, 0, 0);
    }
    ChargeAllConcat(slots, p.packed, p.filled, jobs, p.mid);
  }

  /** The reservation the cycle reports still holds once everything it dispatched is running. */
  lemma PlanKeepsReservation(p: Plan, jobs: Jobs, slots: seq<WorkerSlot>, running: seq<RunningJob>, now: u64,
                             budget: Budget, slots': seq<WorkerSlot>)
    requires var planned := Planned(p, jobs, slots, running, now, budget, slots'); planned && p.reservation.Some?
    ensures AllLive(p.Decisions(), jobs)
    ensures MetBy(p.HeadRequest(jobs), slots', running + Started(p.Decisions(), jobs, now), now, p.reservation.value)
  {
    PackCharges(p.candidates, jobs, slots, budget, 0, 0, 0);
    var request, limit, early := p.HeadRequest(jobs), p.reservation.value, Started(p.packed, jobs, now);
    ReservationMetBy(request, p.mid, running, now, p.reservation, limit);
    assert running + [] == running && running + early + [] == running + early;
    MoreRunningNeverLater(request, p.mid, running, early, [], now, limit);
    var g := Gap(p.candidates, jobs, request, running, now, limit, budget);
    BackfillNeverDelaysHead(g, p.mid, early, p.head.value + 1, 0, 0);
    StartedConcat(p.packed, p.filled, jobs, now);
  }
}
