/** Recovery from a snapshot: every open job is submitted again in slot order, then the running ones are restored.
    When that reproduces the scheduler exactly, and when it does not. */
module Restores {
  import opened Domain
  import Arenas
  import opened Eligibility
  import opened ReadySets
  import opened FairShares
  import opened Lifecycle
  import opened Transitions
  import opened Replay

  /** What resubmission makes of an open job's state. */
  function Back(state: JobState): JobState {
    if state.IsTerminal() || state.Blocked? then state else JobState.Ready
  }

  function StageSlot(slot: Arenas.Slot<Job>, done: bool): Arenas.Slot<Job> {
    match slot
    case Vacant(_, _) => slot
    case Occupied(g, job) =>
      if job.state.IsTerminal() then slot
      else Arenas.Occupied(g, job.(state := if done then Back(job.state) else JobState.Submitted))
  }

  /** The arena once the slots below `i` have been resubmitted; later open jobs still wait as Submitted. */
  function Stage(jobs: Jobs, i: nat): (r: Jobs)
    ensures |r.slots| == |jobs.slots| && r.freeHead == jobs.freeHead
    ensures forall x :: Arenas.Live(r, x) <==> Arenas.Live(jobs, x)
    ensures forall x :: Arenas.Live(jobs, x) ==> Arenas.Value(r, x) == StageJob(Arenas.Value(jobs, x), x.index < i)
    ensures forall x :: Arenas.Issued(r, x) <==> Arenas.Issued(jobs, x)
  {
    Arenas.View(seq(|jobs.slots|, k requires 0 <= k < |jobs.slots| => StageSlot(jobs.slots[k], k < i)), jobs.freeHead)
  }

  function StageJob(job: Job, done: bool): Job {
    if job.state.IsTerminal() then job else job.(state := if done then Back(job.state) else JobState.Submitted)
  }

  /** Resubmitting the job of slot `i` is one state change; a slot without an open job is skipped. */
  lemma StageNext(jobs: Jobs, i: nat)
    requires i < |jobs.slots| <= U32_MAX
    ensures var slot := jobs.slots[i];
            if slot.Occupied? && !slot.value.state.IsTerminal()
            then Stage(jobs, i + 1) == AfterMove(Stage(jobs, i), JobId(i, slot.generation), Back(slot.value.state))
            else Stage(jobs, i + 1) == Stage(jobs, i)
  {
    var slot, a, b := jobs.slots[i], Stage(jobs, i), Stage(jobs, i + 1);
    if slot.Occupied? && !slot.value.state.IsTerminal() {
      var c := AfterMove(a, JobId(i, slot.generation), Back(slot.value.state));
      forall k | 0 <= k < |jobs.slots| ensures b.slots[k] == c.slots[k] {}
      assert b.slots == c.slots;
    } else {
      assert b.slots == a.slots;
    }
  }

  // ---- classification on the way ----

  /** No dependency of `id` has been forgotten. */
  predicate DepsLive(jobs: Jobs, id: JobId)
    requires Arenas.Live(jobs, id)
  {
    forall d :: d in Arenas.Value(jobs, id).deps ==> Arenas.Live(jobs, d)
  }

  /** An open job is reclassified as it was, exactly when none of its dependencies has been forgotten. */
  lemma StageClassifies(jobs: Jobs, done: set<JobId>, i: nat, id: JobId)
    requires HistoryOk(jobs, done) && Open(jobs, id)
    ensures Classification(Stage(jobs, i), id, Arenas.Value(jobs, id).deps).Verdict? <==> DepsLive(jobs, id)
    ensures DepsLive(jobs, id) ==>
              ClassifiesAs(Stage(jobs, i), id, Arenas.Value(jobs, id).deps,
                           Verdict(if StateOf(jobs, id).Blocked? then MustWait else CanRun))
  {
    var s, deps := Stage(jobs, i), Arenas.Value(jobs, id).deps;
    assert JobOk(jobs, done, id);
    forall d | d in deps ensures !DeadEntry(s, d) && d != id
        && (PendingEntry(s, d) <==> d !in done && Arenas.Live(jobs, d)) {
      assert Arenas.Live(jobs, d) ==> JobOk(jobs, done, d);
    }
    if DepsLive(jobs, id) {
      ClassificationIsUnique(s, id, deps, Verdict(if StateOf(jobs, id).Blocked? then MustWait else CanRun));
    } else {
      var d :| d in deps && !Arenas.Live(jobs, d);
      assert Stops(s, id, d);
      var k := StopFrom(s, id, deps, 0);
      if k < |deps| { assert deps[k] in deps; }
    }
  }

  // ---- the tracker on the way ----

  ghost predicate SameLengths(t: Tables) { |t.owner| == |t.unsatisfied| == |t.dependents| }

  /** The tracker once the slots below `i` have been resubmitted. */
  ghost function Rebuilt(jobs: Jobs, i: nat): (t: Tables)
    requires i <= |jobs.slots| <= U32_MAX
    ensures SameLengths(t)
  {
    if i == 0 then Tables([], [], [])
    else
      var slot, t := jobs.slots[i - 1], Rebuilt(jobs, i - 1);
      if slot.Occupied? && !slot.value.state.IsTerminal()
      then Registered(t, Stage(jobs, i - 1), JobId(i - 1, slot.generation), slot.value.deps)
      else t
  }

  /** Whoever an open job waits for sits in a lower slot. */
  ghost predicate WaitsDownward(jobs: Jobs) {
    forall x, d :: Open(jobs, x) && d in Arenas.Value(jobs, x).deps && Open(jobs, d) ==> d.index < x.index
  }

  ghost predicate RebuiltBelow(jobs: Jobs, i: nat, t: Tables) {
    && (forall x :: Tracked(t, x) <==> Open(jobs, x) && x.index < i)
    && (forall k, x :: 0 <= k < |t.dependents| && x in t.dependents[k] ==> Open(jobs, x) && x.index < i)
  }

  ghost predicate Rebuilding(jobs: Jobs, i: nat, t: Tables) {
    |jobs.slots| <= U32_MAX &&
    var consistent := Consistent(t, Graph(jobs));
    consistent && RebuiltBelow(jobs, i, t)
  }

  lemma RebuildingNothing(jobs: Jobs)
    requires |jobs.slots| <= U32_MAX
    ensures Rebuilding(jobs, 0, Tables([], [], []))
  {}

  /** A store in good order whose waits all point to lower slots. Sealed: `Unlocked` unfolds it. */
  ghost predicate Downward(jobs: Jobs, done: set<JobId>) {
    forall k: int :: Unlocked(k) ==> StoreOk(jobs) && HistoryOk(jobs, done) && WaitsDownward(jobs)
  }

  /** The tables rebuilt from the slots below `i` are right so far. Sealed like the other. */
  ghost predicate RightSoFar(jobs: Jobs, i: nat) {
    forall k: int :: Unlocked(k) ==> i <= |jobs.slots| <= U32_MAX && Rebuilding(jobs, i, Rebuilt(jobs, i))
  }

  lemma RebuiltOneMore(jobs: Jobs, done: set<JobId>, i: nat)
    requires i < |jobs.slots| <= U32_MAX
    requires var down, right := Downward(jobs, done), RightSoFar(jobs, i); down && right
    ensures RightSoFar(jobs, i + 1)
  {
    assert Unlocked(0);
    var slot, t := jobs.slots[i], Rebuilt(jobs, i);
    if slot.Occupied? && !slot.value.state.IsTerminal() {
      RebuiltStep(jobs, done, i, t, JobId(i, slot.generation));
    } else {
      RebuiltSkip(jobs, i, t);
    }
  }

  lemma NothingRebuilt(jobs: Jobs)
    requires |jobs.slots| <= U32_MAX
    ensures RightSoFar(jobs, 0)
  {
    RebuildingNothing(jobs);
  }

  /** With every wait pointing to a lower slot, each resubmission finds its dependencies already tracked. */
  lemma {:induction false} RebuiltUpTo(jobs: Jobs, done: set<JobId>, i: nat)
    requires i <= |jobs.slots| <= U32_MAX
    requires var down := Downward(jobs, done); down
    ensures var right := RightSoFar(jobs, i); right
    decreases i
  {
    if i == 0 {
      NothingRebuilt(jobs);
    } else {
      RebuiltUpTo(jobs, done, i - 1);
      RebuiltOneMore(jobs, done, i - 1);
    }
  }

  lemma RebuiltConsistent(jobs: Jobs, done: set<JobId>, i: nat)
    requires StoreOk(jobs) && HistoryOk(jobs, done) && WaitsDownward(jobs) && i <= |jobs.slots|
    ensures Rebuilding(jobs, i, Rebuilt(jobs, i))
  {
    RebuiltUpTo(jobs, done, i);
    assert Unlocked(0);
  }

  lemma RebuiltSkip(jobs: Jobs, i: nat, t: Tables)
    requires i < |jobs.slots| <= U32_MAX && Rebuilding(jobs, i, t)
    requires jobs.slots[i].Vacant? || jobs.slots[i].value.state.IsTerminal()
    ensures Rebuilding(jobs, i + 1, t)
  {
    forall x | Open(jobs, x) && x.index < i + 1 ensures x.index < i {}
  }

  lemma RebuiltStep(jobs: Jobs, done: set<JobId>, i: nat, t: Tables, id: JobId)
    requires StoreOk(jobs) && HistoryOk(jobs, done) && WaitsDownward(jobs) && i < |jobs.slots|
    requires Open(jobs, id) && id.index == i
    requires Rebuilding(jobs, i, t)
    ensures Rebuilding(jobs, i + 1, Registered(t, Stage(jobs, i), id, Arenas.Value(jobs, id).deps))
  {
    var deps, graph, s := Arenas.Value(jobs, id).deps, Graph(jobs), Stage(jobs, i);
    assert JobOk(jobs, done, id);
    forall d | d in deps ensures PendingEntry(s, d) <==> Tracked(t, d) {
      assert PendingEntry(s, d) <==> Open(jobs, d);
    }
    RebuiltUnknown(jobs, i, t, id);
    RegistrationKeepsCounters(t, s, id, deps, graph);
    assert graph[id := deps] == graph;
    var r := Registered(t, s, id, deps);
    forall x ensures Tracked(r, x) <==> Open(jobs, x) && x.index < i + 1 {
      assert x.index == i && Arenas.Live(jobs, x) ==> x == id;
    }
    forall k, x | 0 <= k < |r.dependents| && x in r.dependents[k] ensures Open(jobs, x) && x.index < i + 1 {}
  }

  lemma RebuiltUnknown(jobs: Jobs, i: nat, t: Tables, id: JobId)
    requires StoreOk(jobs) && WaitsDownward(jobs) && i < |jobs.slots| && Open(jobs, id) && id.index == i
    requires Consistent(t, Graph(jobs)) && RebuiltBelow(jobs, i, t)
    ensures Unknown(t, id, Graph(jobs))
  {
    if i < |t.owner| && t.owner[i] != NO_OWNER { assert Tracked(t, t.owner[i]); }
    forall j | Tracked(t, j) && j in Graph(jobs) ensures id !in Graph(jobs)[j] {
      assert Open(jobs, j) && j.index < i;
    }
  }

  // ---- edges that resubmission loses ----

  /** Every open job below `i` is tracked, and only jobs of higher slots are recorded as waiting for it. */
  ghost predicate PointsUp(jobs: Jobs, i: nat, t: Tables) {
    forall d :: Open(jobs, d) && d.index < i ==>
      Tracked(t, d) && d.index < |t.dependents| && forall x :: x in t.dependents[d.index] ==> x.index > d.index
  }

  lemma OwnPointsUp(jobs: Jobs, i: nat, t: Tables, id: JobId)
    requires SameLengths(t) && PointsUp(jobs, i, t) && Open(jobs, id) && id.index == i && i < U32_MAX
    ensures SameLengths(Own(t, id)) && PointsUp(jobs, i + 1, Own(t, id))
  {
    var r := Own(t, id);
    forall d | Open(jobs, d) && d.index < i + 1
      ensures Tracked(r, d) && forall x :: x in r.dependents[d.index] ==> x.index > d.index
    {
      assert d.index == i ==> d == id;
    }
  }

  /** One more edge towards `id`, which sits at `i`: from a lower slot it points up, from a higher one it does not count
      yet. */
  lemma EdgePointsUp(jobs: Jobs, i: nat, t: Tables, dep: JobId, id: JobId)
    requires SameLengths(t) && PointsUp(jobs, i + 1, t) && Open(jobs, dep) && id.index == i && dep.index != i
      && dep.index < U32_MAX
    ensures SameLengths(AddEdge(t, dep, id)) && PointsUp(jobs, i + 1, AddEdge(t, dep, id))
  {
    var r := AddEdge(t, dep, id);
    forall d | Open(jobs, d) && d.index < i + 1
      ensures Tracked(r, d) && d.index < |r.dependents| && forall x :: x in r.dependents[d.index] ==> x.index > d.index
    {
      assert d.index == dep.index ==> d == dep;
    }
  }

  lemma {:induction false} EdgesPointUp(jobs: Jobs, s: Jobs, i: nat, t: Tables, deps: seq<JobId>, id: JobId)
    requires SameLengths(t) && PointsUp(jobs, i + 1, t) && id.index == i && |jobs.slots| <= U32_MAX
    requires forall d :: d in deps ==> d.index != i && (PendingEntry(s, d) ==> Open(jobs, d))
    ensures SameLengths(AddEdges(t, s, deps, id)) && PointsUp(jobs, i + 1, AddEdges(t, s, deps, id))
  {
    if deps != [] {
      var n := |deps| - 1;
      EdgesPointUp(jobs, s, i, t, deps[..n], id);
      if PendingEntry(s, deps[n]) { EdgePointsUp(jobs, i, AddEdges(t, s, deps[..n], id), deps[n], id); }
    }
  }

  lemma {:induction false} RebuiltPointsUp(jobs: Jobs, done: set<JobId>, i: nat)
    requires StoreOk(jobs) && HistoryOk(jobs, done) && i <= |jobs.slots|
    requires forall x :: Open(jobs, x) ==> DepsLive(jobs, x)
    ensures PointsUp(jobs, i, Rebuilt(jobs, i))
    decreases i
  {
    if i > 0 {
      RebuiltPointsUp(jobs, done, i - 1);
      var slot, t := jobs.slots[i - 1], Rebuilt(jobs, i - 1);
      if slot.Occupied? && !slot.value.state.IsTerminal() {
        RegisteredPointsUp(jobs, done, i - 1, t, JobId(i - 1, slot.generation));
      } else {
        forall d | Open(jobs, d) && d.index < i ensures d.index < i - 1 {}
      }
    }
  }

  lemma RegisteredPointsUp(jobs: Jobs, done: set<JobId>, i: nat, t: Tables, id: JobId)
    requires StoreOk(jobs) && HistoryOk(jobs, done) && i < |jobs.slots| && Open(jobs, id) && id.index == i
      && DepsLive(jobs, id)
    requires SameLengths(t) && PointsUp(jobs, i, t)
    ensures PointsUp(jobs, i + 1, Registered(t, Stage(jobs, i), id, Arenas.Value(jobs, id).deps))
  {
    var s, deps := Stage(jobs, i), Arenas.Value(jobs, id).deps;
    assert JobOk(jobs, done, id);
    OwnPointsUp(jobs, i, t, id);
    forall d | d in deps ensures d.index != i && (PendingEntry(s, d) ==> Open(jobs, d)) {
      assert d != id && Arenas.Live(jobs, d);
    }
    EdgesPointUp(jobs, s, i, Own(t, id), deps, id);
  }

  /** The rebuilt counters and edges are right exactly when nobody waits for a job in a higher slot. */
  lemma RebuiltRightIff(jobs: Jobs, done: set<JobId>)
    requires StoreOk(jobs) && HistoryOk(jobs, done)
    requires forall x :: Open(jobs, x) ==> DepsLive(jobs, x)
    ensures Consistent(Rebuilt(jobs, |jobs.slots|), Graph(jobs)) <==> WaitsDownward(jobs)
  {
    var n, t := |jobs.slots|, Rebuilt(jobs, |jobs.slots|);
    if WaitsDownward(jobs) { RebuiltConsistent(jobs, done, n); }
    if Consistent(t, Graph(jobs)) {
      RebuiltPointsUp(jobs, done, n);
      forall x, d | Open(jobs, x) && d in Arenas.Value(jobs, x).deps && Open(jobs, d) ensures d.index < x.index {
        assert Tracked(t, x) && Tracked(t, d);
        assert multiset(t.dependents[d.index])[x] == multiset(Graph(jobs)[x])[d];
        assert x in t.dependents[d.index];
      }
    }
  }

  // ---- the whole restore ----

  ghost function InFlight(jobs: Jobs): set<JobId>
    requires |jobs.slots| <= U32_MAX
  {
    set x | x in LiveIds(jobs) && In(jobs, x, JobState.Preempted)
  }

  /** The arena a restored engine has: as it was, except that evictions in flight are back in the queue. */
  ghost function Resumed(jobs: Jobs): Jobs
    requires |jobs.slots| <= U32_MAX
  {
    Restate(jobs, All(InFlight(jobs), JobState.Ready))
  }

  ghost function CompletedIds(jobs: Jobs): set<JobId>
    requires |jobs.slots| <= U32_MAX
  {
    set x | x in LiveIds(jobs) && In(jobs, x, JobState.Completed)
  }

  ghost predicate AllDepsLive(jobs: Jobs) { forall x :: Open(jobs, x) ==> DepsLive(jobs, x) }

  /** No job that is being evicted holds cpu. */
  ghost predicate EvictionsHoldNothing(
                                       jobs: Jobs) { forall x :: In(jobs, x, JobState.Preempted) ==>
                                           Arenas.Value(jobs, x).request.cpu == 0 }

  lemma ResumedHistory(jobs: Jobs, done: set<JobId>)
    requires StoreOk(jobs) && HistoryOk(jobs, done) && AllDepsLive(jobs)
    ensures HistoryOk(Resumed(jobs), CompletedIds(jobs))
  {
    var after, done' := Resumed(jobs), CompletedIds(jobs);
    forall x | Arenas.Live(jobs, x) ensures x in done <==> x in done' { assert JobOk(jobs, done, x); }
    forall x | Arenas.Live(after, x) ensures JobOk(after, done', x) { ResumedJob(jobs, done, x); }
  }

  lemma ResumedJob(jobs: Jobs, done: set<JobId>, x: JobId)
    requires StoreOk(jobs) && HistoryOk(jobs, done) && AllDepsLive(jobs) && Arenas.Live(jobs, x)
    ensures JobOk(Resumed(jobs), CompletedIds(jobs), x)
  {
    var after, done' := Resumed(jobs), CompletedIds(jobs);
    assert JobOk(jobs, done, x);
    var deps := Arenas.Value(jobs, x).deps;
    if Open(jobs, x) {
      forall d | d in deps ensures d in done <==> d in done' {
        assert Arenas.Live(jobs, d);
        assert JobOk(jobs, done, d);
      }
      forall d | Open(jobs, d) ensures Open(after, d) {}
    }
  }

  lemma ResumedTracker(jobs: Jobs, done: set<JobId>)
    requires StoreOk(jobs) && HistoryOk(jobs, done) && AllDepsLive(jobs)
    ensures TrackerOk(Resumed(jobs), Rebuilt(jobs, |jobs.slots|)) <==> WaitsDownward(jobs)
  {
    RestateKeepsGraph(jobs, All(InFlight(jobs), JobState.Ready));
    RebuiltRightIff(jobs, done);
    if WaitsDownward(jobs) {
      RebuiltConsistent(jobs, done, |jobs.slots|);
      ResumedTracks(jobs, Rebuilt(jobs, |jobs.slots|));
    }
  }

  lemma ResumedTracks(jobs: Jobs, t: Tables)
    requires |jobs.slots| <= U32_MAX && Rebuilding(jobs, |jobs.slots|, t)
    ensures TracksOpen(Resumed(jobs), t) && EdgesIssued(Resumed(jobs), t)
  {
    var after := Resumed(jobs);
    forall x ensures Tracked(t, x) <==> Open(after, x) { assert Open(after, x) <==> Open(jobs, x); }
  }

  lemma {:induction false} SumCpuLess(a: seq<Arenas.Slot<Job>>, b: seq<Arenas.Slot<Job>>, account: nat)
    requires |a| == |b| && forall i :: 0 <= i < |a| ==> CpuOf(a[i], account) <= CpuOf(b[i], account)
    ensures SumCpu(a, account) <= SumCpu(b, account)
    ensures (exists i :: 0 <= i < |a| && CpuOf(a[i], account) < CpuOf(b[i], account)) ==>
              SumCpu(a, account) < SumCpu(b, account)
  {
    if a != [] { SumCpuLess(a[..|a| - 1], b[..|a| - 1], account); }
  }

  /** The restored ledgers still charge whatever was being evicted. */
  lemma ResumedCharge(jobs: Jobs, ledgers: seq<Ledger>)
    requires StoreOk(jobs) && ChargeOk(jobs, ledgers)
    ensures ChargeOk(Resumed(jobs), ledgers) <==> EvictionsHoldNothing(jobs)
  {
    var after := Resumed(jobs);
    forall i, a | 0 <= i < |jobs.slots| ensures CpuOf(after.slots[i], a) <= CpuOf(jobs.slots[i], a) {}
    if EvictionsHoldNothing(jobs) {
      forall i, a | 0 <= i < |jobs.slots| ensures CpuOf(jobs.slots[i], a) == CpuOf(after.slots[i], a) {
        if jobs.slots[i].Occupied? { assert Arenas.Live(jobs, JobId(i, jobs.slots[i].generation)); }
      }
      ChargeUnaffected(jobs, after, ledgers);
    }
    if ChargeOk(after, ledgers) {
      forall x | In(jobs, x, JobState.Preempted) ensures Arenas.Value(jobs, x).request.cpu == 0 {
        var a := Arenas.Value(jobs, x).account;
        SumCpuLess(after.slots, jobs.slots, a);
        assert CpuOf(after.slots[x.index], a) == 0;
      }
    }
  }

  /** A restored scheduler is right exactly when nobody waited for a job in a higher slot and no eviction in flight held
      cpu. */
  lemma RestoreRightIff(jobs: Jobs, b: Books, q: Queues)
    requires Inv(jobs, b) && AllDepsLive(jobs) && QueueOk(Resumed(jobs), q)
    ensures Inv(Resumed(jobs), Books(CompletedIds(jobs), q, Rebuilt(jobs, |jobs.slots|), b.ledgers))
       <==> WaitsDownward(jobs) && EvictionsHoldNothing(jobs)
  {
    RestateStore(jobs, All(InFlight(jobs), JobState.Ready));
    ResumedHistory(jobs, b.done);
    ResumedTracker(jobs, b.done);
    ResumedCharge(jobs, b.ledgers);
  }

  // ---- an example ----

  /** A job in slot 0 that waits for a job in slot 1: slot 0 was reused after its first tenant was forgotten. */
  function Reused(waiter: Job, target: Job): Jobs {
    Arenas.View([Arenas.Occupied(1, waiter), Arenas.Occupied(0, target)], None)
  }

  /** After the restore the waiter still counts one missing dependency, but nothing will ever report it. */
  lemma RestoreLosesAnEdge(waiter: Job, target: Job)
    requires waiter.state.Blocked? && waiter.deps == [JobId(1, 0)] && target.state.Ready? && target.deps == []
    ensures var jobs := Reused(waiter, target);
            && StoreOk(jobs) && HistoryOk(jobs, {}) && AllDepsLive(jobs) && !WaitsDownward(jobs)
            && !Consistent(Rebuilt(jobs, 2), Graph(jobs))
            && (JobId(1, 0).index < |Rebuilt(jobs, 2).dependents| ==> JobId(0, 1) !in Rebuilt(jobs, 2).dependents[1])
  {
    var jobs, x, d := Reused(waiter, target), JobId(0, 1), JobId(1, 0);
    assert Arenas.FreeListExact(jobs.slots, jobs.freeHead, []);
    assert Arenas.Live(jobs, x) && Arenas.Live(jobs, d);
    forall y | Arenas.Live(jobs, y) ensures y == x || y == d {}
    assert d in Arenas.Value(jobs, x).deps && Open(jobs, x) && Open(jobs, d);
    assert JobOk(jobs, {}, x) && JobOk(jobs, {}, d);
    RebuiltRightIff(jobs, {});
    RebuiltPointsUp(jobs, {}, 2);
  }
}
