/** Jobs entering and leaving the arena: submission and retention keep the scheduler's invariant. */
module Admission {
  import opened Domain
  import Arenas
  import opened Eligibility
  import opened ReadySets
  import opened FairShares
  import opened Lifecycle

  /** Room for one more job without its index reaching the sentinel. */
  predicate Roomy(jobs: Jobs) { jobs.freeHead.Some? || |jobs.slots| < U32_MAX }

  function StateFor(r: Readiness): JobState {
    match r case CanRun => JobState.Ready case MustWait => JobState.Blocked case Doomed => JobState.Cancelled
  }

  /** The arena accepts an insert and its index stays below the sentinel. */
  ghost predicate CanAdmit(jobs: Jobs) {
    StoreOk(jobs) && Roomy(jobs)
        && (jobs.freeHead.Some? ==> jobs.freeHead.value < |jobs.slots| && jobs.slots[jobs.freeHead.value].Vacant?)
  }

  lemma StoreAdmits(jobs: Jobs)
    requires StoreOk(jobs) && Roomy(jobs)
    ensures CanAdmit(jobs)
  {
    Arenas.FreeHeadIsVacant(jobs);
  }

  /** `after` is `jobs` with one new job under a handle never issued before. */
  ghost predicate Admits(jobs: Jobs, after: Jobs, id: JobId, job: Job) {
    && StoreOk(after)
    && !Arenas.Issued(jobs, id) && id.index < U32_MAX
    && (forall x :: Arenas.Live(after, x) <==> Arenas.Live(jobs, x) || x == id)
    && (forall x :: Arenas.Live(jobs, x) ==> Arenas.Value(after, x) == Arenas.Value(jobs, x))
    && Arenas.Live(after, id) && Arenas.Value(after, id) == job
    && (forall x :: Arenas.Issued(after, x) <==> Arenas.Issued(jobs, x) || x == id)
    && !exists x :: Arenas.Live(jobs, x) && x.index == id.index
  }

  lemma InsertAdmits(jobs: Jobs, job: Job)
    requires CanAdmit(jobs)
    ensures Admits(jobs, Arenas.Insert(jobs, job), Arenas.NextId(jobs), job)
  {
    Arenas.InsertIssuesNextId(jobs, job);
  }

  /** A verdict reached before the insert stands after it. */
  lemma ClassifyAfterInsert(jobs: Jobs, after: Jobs, id: JobId, deps: seq<JobId>, c: Classified)
    requires forall x :: x != id ==> (Arenas.Live(after, x) <==> Arenas.Live(jobs, x))
    requires forall x :: x != id && Arenas.Live(jobs, x) ==> Arenas.Value(after, x) == Arenas.Value(jobs, x)
    ensures ClassifiesAs(jobs, id, deps, c) <==> ClassifiesAs(after, id, deps, c)
  {
    forall d
      ensures BadEntry(jobs, id, d) == BadEntry(after, id, d) && Stops(jobs, id, d) == Stops(after, id, d)
      ensures d != id ==> PendingEntry(jobs, d) == PendingEntry(after, d)
    {}
    forall k ensures FirstStop(jobs, id, deps, k) == FirstStop(after, id, deps, k) {}
  }

  // ---- submission ----

  lemma SubmissionHistory(jobs: Jobs, after: Jobs, done: set<JobId>, id: JobId, job: Job, r: Readiness)
    requires HistoryOk(jobs, done) && Admits(jobs, after, id, job) && job.state == StateFor(r)
    requires ClassifiesAs(jobs, id, job.deps, Verdict(r))
    ensures HistoryOk(after, done)
  {
    forall x | Arenas.Live(after, x) ensures JobOk(after, done, x) {
      if x == id {
        forall d | d in job.deps && Arenas.Live(jobs, d) ensures JobOk(jobs, done, d) {}
      } else {
        assert JobOk(jobs, done, x);
        JobKept(jobs, after, done, x);
      }
    }
  }

  lemma ConsistentExtend(t: Tables, graph: map<JobId, seq<JobId>>, id: JobId, deps: seq<JobId>)
    requires Consistent(t, graph) && !Tracked(t, id)
    ensures Consistent(t, graph[id := deps])
  {}

  lemma GraphAfterAdmission(jobs: Jobs, after: Jobs, id: JobId, job: Job)
    requires StoreOk(jobs) && Admits(jobs, after, id, job)
    ensures Graph(after) == Graph(jobs)[id := job.deps]
  {}

  lemma NewcomerUnknown(jobs: Jobs, after: Jobs, done: set<JobId>, t: Tables, id: JobId, job: Job)
    requires StoreOk(jobs) && HistoryOk(jobs, done) && TrackerOk(jobs, t) && Admits(jobs, after, id, job)
    ensures Unknown(t, id, Graph(jobs)) && !Tracked(t, id)
  {
    assert Tracked(t, id) <==> Open(jobs, id);
    assert id.index < |t.owner| ==> (Tracked(t, t.owner[id.index]) <==> Open(jobs, t.owner[id.index]));
    forall j | Tracked(t, j) && j in Graph(jobs) ensures id !in Graph(jobs)[j] {
      assert Tracked(t, j) <==> Open(jobs, j);
      assert JobOk(jobs, done, j);
    }
  }

  /** `before` is the arena while the new job is still Submitted: what the tracker looks at. */
  lemma SubmissionTracker(jobs: Jobs, before: Jobs, after: Jobs, done: set<JobId>, t: Tables, id: JobId, sub: Job,
                          job: Job, r: Readiness)
    requires StoreOk(jobs) && HistoryOk(jobs, done) && TrackerOk(jobs, t)
    requires Admits(jobs, before, id, sub) && Admits(jobs, after, id, job) && job == sub.(state := StateFor(r))
    requires ClassifiesAs(jobs, id, job.deps, Verdict(r))
    ensures TrackerOk(after, if r.Doomed? then t else Registered(t, before, id, job.deps))
  {
    NewcomerUnknown(jobs, after, done, t, id, job);
    GraphAfterAdmission(jobs, after, id, job);
    if r.Doomed? {
      ConsistentExtend(t, Graph(jobs), id, job.deps);
      OpenAfterAdmission(jobs, after, t, t, id, job);
    } else {
      forall d | d in job.deps ensures PendingEntry(before, d) <==> Tracked(t, d) {
        assert !Stops(jobs, id, d);
        assert Tracked(t, d) <==> Open(jobs, d);
      }
      RegistrationKeepsCounters(t, before, id, job.deps, Graph(jobs));
      OpenAfterAdmission(jobs, after, t, Registered(t, before, id, job.deps), id, job);
    }
  }

  lemma OpenAfterAdmission(jobs: Jobs, after: Jobs, t: Tables, t': Tables, id: JobId, job: Job)
    requires TracksOpen(jobs, t) && Admits(jobs, after, id, job)
    requires forall j :: Tracked(t', j) <==> Tracked(t, j) || (j == id && !job.state.IsTerminal())
    ensures TracksOpen(after, t')
  {
    forall x ensures Tracked(t', x) <==> Open(after, x) {
      assert Tracked(t, x) <==> Open(jobs, x);
    }
  }

  /** `before` is the arena while the new job is still Submitted. */
  lemma SubmissionQueue(jobs: Jobs, before: Jobs, after: Jobs, q: Queues, q': Queues, id: JobId, sub: Job, job: Job)
    requires QueueOk(jobs, q) && Admits(jobs, before, id, sub) && Admits(jobs, after, id, job)
      && sub.priorityClass == job.priorityClass
    requires Joined(before, q, if job.state.Ready? then {id} else {}, q')
    ensures QueueOk(after, q')
  {
    forall c: PriorityClass, x ensures Queued(q', c, x) <==>
        In(after, x, JobState.Ready) && Arenas.Value(after, x).priorityClass == c {
      assert Queued(q, c, x) <==> In(jobs, x, JobState.Ready) && Arenas.Value(jobs, x).priorityClass == c;
    }
  }

  lemma {:induction false} SumCpuUnused(slots: seq<Arenas.Slot<Job>>, account: nat)
    requires forall i :: 0 <= i < |slots| ==> CpuOf(slots[i], account) == 0
    ensures SumCpu(slots, account) == 0
  {
    if slots != [] { SumCpuUnused(slots[..|slots| - 1], account); }
  }

  /** The old ledgers are untouched and any new one is blank. */
  ghost predicate Opened(ledgers: seq<Ledger>, ledgers': seq<Ledger>) {
    && |ledgers| <= |ledgers'|
    && (forall a :: 0 <= a < |ledgers| ==> ledgers'[a] == ledgers[a])
    && (forall a :: |ledgers| <= a < |ledgers'| ==> ledgers'[a] == FRESH)
  }

  /** A newcomer holds no cpu, and new ledgers start uncharged. */
  lemma SubmissionCharge(jobs: Jobs, ledgers: seq<Ledger>, ledgers': seq<Ledger>, job: Job)
    requires CanAdmit(jobs) && ChargeOk(jobs, ledgers) && !job.state.HoldsCpu()
    requires job.account < |ledgers'| && Opened(ledgers, ledgers')
    ensures ChargeOk(Arenas.Insert(jobs, job), ledgers')
  {
    InsertAdmits(jobs, job);
    var after := Arenas.Insert(jobs, job);
    forall a | 0 <= a < |ledgers'| ensures ledgers'[a].runningCpu == SumCpu(after.slots, a) {
      if a >= |ledgers| {
        forall i | 0 <= i < |jobs.slots| ensures CpuOf(jobs.slots[i], a) == 0 {
          if jobs.slots[i].Occupied? { assert Arenas.Live(jobs, JobId(i, jobs.slots[i].generation)); }
        }
        SumCpuUnused(jobs.slots, a);
      }
      if jobs.freeHead.Some? {
        SumCpuUpdate(jobs.slots, jobs.freeHead.value, after.slots[jobs.freeHead.value], a);
      } else {
        assert after.slots[..|jobs.slots|] == jobs.slots;
      }
    }
  }

  // ---- retention ----

  /** Forgetting a finished job: its slot is freed and its handle retired for good. */
  lemma ForgettingKeeps(jobs: Jobs, b: Books, id: JobId)
    requires Inv(jobs, b) && Arenas.Live(jobs, id) && StateOf(jobs, id).IsTerminal() && id.generation < U32_MAX
    ensures Inv(Arenas.Remove(jobs, id), b)
  {
    Arenas.RemoveRetires(jobs, id);
    var after := Arenas.Remove(jobs, id);
    ForgettingHistory(jobs, after, b.done, id);
    ForgettingTracker(jobs, after, b.tables, id);
    ForgettingQueue(jobs, after, b.queues, id);
    forall i, a | 0 <= i < |jobs.slots| ensures CpuOf(jobs.slots[i], a) == CpuOf(after.slots[i], a) {}
    ChargeUnaffected(jobs, after, b.ledgers);
  }

  /** `after` is `jobs` without the finished job `id`. */
  ghost predicate Forgets(jobs: Jobs, after: Jobs, id: JobId) {
    && Arenas.Live(jobs, id) && StateOf(jobs, id).IsTerminal()
    && (forall x :: Arenas.Live(after, x) <==> Arenas.Live(jobs, x) && x != id)
    && (forall x :: Arenas.Live(after, x) ==> Arenas.Value(after, x) == Arenas.Value(jobs, x))
    && (forall x :: Arenas.Issued(after, x) <==> Arenas.Issued(jobs, x))
  }

  lemma ForgettingHistory(jobs: Jobs, after: Jobs, done: set<JobId>, id: JobId)
    requires HistoryOk(jobs, done) && Forgets(jobs, after, id)
    ensures HistoryOk(after, done)
  {
    forall x | Arenas.Live(after, x) ensures JobOk(after, done, x) {
      assert JobOk(jobs, done, x);
      JobKept(jobs, after, done, x);
    }
  }

  lemma ForgettingTracker(jobs: Jobs, after: Jobs, t: Tables, id: JobId)
    requires TrackerOk(jobs, t) && Forgets(jobs, after, id) && |after.slots| <= U32_MAX
    ensures TrackerOk(after, t)
  {
    assert Tracked(t, id) <==> Open(jobs, id);
    forall x ensures Tracked(t, x) <==> Open(after, x) { assert Tracked(t, x) <==> Open(jobs, x); }
    ConsistentShrink(t, Graph(jobs), Graph(after));
  }

  lemma ConsistentShrink(t: Tables, graph: map<JobId, seq<JobId>>, graph': map<JobId, seq<JobId>>)
    requires Consistent(t, graph)
    requires forall j :: Tracked(t, j) ==> j in graph' && (j in graph ==> graph'[j] == graph[j])
    ensures Consistent(t, graph')
  {
    assert forall j :: Tracked(t, j) ==> j in graph;
  }

  lemma ForgettingQueue(jobs: Jobs, after: Jobs, q: Queues, id: JobId)
    requires QueueOk(jobs, q) && Forgets(jobs, after, id)
    ensures QueueOk(after, q)
  {
    forall c: PriorityClass, x ensures Queued(q, c, x) <==>
        In(after, x, JobState.Ready) && Arenas.Value(after, x).priorityClass == c {
      assert Queued(q, c, x) <==> In(jobs, x, JobState.Ready) && Arenas.Value(jobs, x).priorityClass == c;
    }
  }
}
