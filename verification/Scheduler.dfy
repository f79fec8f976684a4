/** The scheduler object: what each lifecycle call does to the arena, the queues, the counters and the charges. */
module Schedulers {
  import opened Domain
  import Arenas
  import opened Decay
  import opened Eligibility
  import opened ReadySets
  import opened FairShares
  import opened Lifecycle
  import opened Admission
  import opened Placement
  import opened Priority
  import opened Transitions
  import opened Cycles
  import opened Slots
  import opened Reservation

  datatype LifecycleError =
    | UnknownJob(id: JobId)
    | NotSubmitted(id: JobId)
    | BadDependency(id: JobId, dependency: JobId)
    | BadAccount(account: u32)
    | IllegalTransition(from: JobState, to: JobState)

  type Outcome = Option<LifecycleError>

  /** Everything queued is live, so no two queued handles share an index. */
  ghost predicate QueuedLive(jobs: Jobs, q: Queues) {
    forall c: PriorityClass, id :: Queued(q, c, id) ==> Arenas.Live(jobs, id)
  }

  lemma QueueIsLive(jobs: Jobs, q: Queues)
    requires QueueOk(jobs, q)
    ensures QueuedLive(jobs, q)
  {}

  /** `after` is `jobs` once those of `ids` that may move to `state` have moved. */
  ghost predicate Restated(jobs: Jobs, ids: seq<JobId>, state: JobState, after: Jobs) {
    Small(jobs) && after == Restate(jobs, All(Able(jobs, ids, state), state))
  }

  lemma AbleOneMore(jobs: Jobs, ids: seq<JobId>, k: nat, state: JobState)
    requires k < |ids|
    ensures Able(jobs, ids[..k + 1], state) == Able(jobs, ids[..k], state) + if MayBecome(jobs, ids[k], state)
              then {ids[k]} else {}
  {
    var before, now := Able(jobs, ids[..k], state), Able(jobs, ids[..k + 1], state);
    forall y ensures y in now <==> y in before || (y == ids[k] && MayBecome(jobs, ids[k], state)) {
      assert y in ids[..k + 1] <==> y in ids[..k] || y == ids[k];
    }
  }

  lemma NotYetVisited(ids: seq<JobId>, k: nat)
    requires k < |ids| && NoDuplicates(ids)
    ensures ids[k] !in ids[..k]
  {
    forall j | 0 <= j < k ensures ids[j] != ids[k] {}
  }

  /** Visiting one more id moves it exactly when it could have moved at the start. */
  lemma VisitStep(jobs: Jobs, ids: seq<JobId>, k: nat, state: JobState, after: Jobs, next: Jobs)
    requires k < |ids| && NoDuplicates(ids) && Restated(jobs, ids[..k], state, after)
    requires next == if MayBecome(after, ids[k], state) then AfterMove(after, ids[k], state) else after
    ensures MayBecome(after, ids[k], state) <==> MayBecome(jobs, ids[k], state)
    ensures Arenas.Live(jobs, ids[k]) ==> Arenas.Value(after, ids[k]) == Arenas.Value(jobs, ids[k])
    ensures Restated(jobs, ids[..k + 1], state, next)
  {
    NotYetVisited(ids, k);
    AbleOneMore(jobs, ids, k, state);
    var x, before := ids[k], Able(jobs, ids[..k], state);
    RestateTwice(jobs, All(before, state), map[x := state]);
    assert All(before, state) + map[x := state] == All(before + {x}, state);
    assert before + {} == before;
  }

  lemma JoinedLive(jobs: Jobs, after: Jobs, q: Queues, ids: set<JobId>, q': Queues)
    requires QueuedLive(jobs, q) && Joined(jobs, q, ids, q') && forall x :: Arenas.Live(jobs, x) ==>
              Arenas.Live(after, x)
    ensures QueuedLive(after, q')
  {}

  /** Which jobs joined, and in which class, does not depend on their states. */
  lemma JoinedSame(jobs: Jobs, moved: Jobs, q: Queues, ids: set<JobId>, q': Queues, states: map<JobId, JobState>)
    requires Small(jobs) && moved == Restate(jobs, states) && Joined(moved, q, ids, q')
    ensures Joined(jobs, q, ids, q')
  {}

  lemma PulledOneMore(jobs: Jobs, q: Queues, ids: seq<JobId>, k: nat, q': Queues, next: Queues)
    requires k < |ids| && Pulled(jobs, q, ids[..k], q')
    requires next == if In(jobs, ids[k], JobState.Ready)
              then Dequeue(q', Arenas.Value(jobs, ids[k]).priorityClass, ids[k]) else q'
    ensures Pulled(jobs, q, ids[..k + 1], next)
  {
    forall c: PriorityClass, y
      ensures Queued(next, c, y) <==>
                Queued(q, c, y) && !(y in ids[..k + 1] && In(jobs, y, JobState.Ready)
                    && Arenas.Value(jobs, y).priorityClass == c)
    {
      assert y in ids[..k + 1] <==> y in ids[..k] || y == ids[k];
      if y == ids[k] && In(jobs, y, JobState.Ready) && Arenas.Value(jobs, y).priorityClass == c {
        assert !Queued(next, c, y);
      } else {
        assert Queued(next, c, y) <==> Queued(q', c, y);
      }
    }
  }

  /** Pulling `id` first and the cascade afterwards. */
  lemma WithdrawnInTwo(jobs: Jobs, q: Queues, mid: Queues, q': Queues, id: JobId, state: JobState, cascade: seq<JobId>)
    requires Small(jobs) && Arenas.Live(jobs, id)
    requires mid == if StateOf(jobs, id).Ready? then Dequeue(q, Arenas.Value(jobs, id).priorityClass, id) else q
    requires Pulled(AfterMove(jobs, id, state), mid, cascade, q')
    ensures Withdrawn(jobs, q, id, state, cascade, q')
  {
    var job, moved := Arenas.Value(jobs, id), AfterMove(jobs, id, state);
    forall c: PriorityClass, x
      ensures Queued(q', c, x) <==>
                && Queued(q, c, x)
                && !(x == id && job.state.Ready? && job.priorityClass == c)
                && !(x in cascade && In(moved, x, JobState.Ready) && Arenas.Value(moved, x).priorityClass == c)
    {
      assert Queued(mid, c, x) <==> Queued(q, c, x) && !(x == id && job.state.Ready? && job.priorityClass == c);
    }
  }

  /** Every Ready job asks for something. */
  ghost predicate ReadyNonZero(jobs: Jobs) {
    forall id :: In(jobs, id, JobState.Ready) ==> Arenas.Value(jobs, id).request != ZERO
  }

  /** The candidates that stay queued. */
  function PendingJobs(candidates: seq<ReadyEntry>, marks: seq<Disposition>): set<JobId>
    requires |candidates| <= |marks|
  {
    set i | 0 <= i < |candidates| && marks[i].Pending? :: candidates[i].job
  }

  /** The books after emitting the first `k` candidates: dispatched ones run, pending ones are queued again. */
  ghost predicate Emitted(table: seq<nat>, candidates: seq<ReadyEntry>, marks: seq<Disposition>, k: nat, jobs: Jobs,
                          q: Queues, ledgers: seq<Ledger>,
                          now: u64, quantum: nat, jobs': Jobs, q': Queues, ledgers': seq<Ledger>)
    requires k <= |candidates| <= |marks| && Small(jobs) && IsTable(table) && quantum > 0
  {
    var ids := DispatchedJobs(candidates[..k], marks);
    && jobs' == AfterDispatch(jobs, ids)
    && Joined(jobs, q, PendingJobs(candidates[..k], marks), q')
    && ledgers' == TakenAll(table, ledgers, jobs, ids, now, quantum)
  }

  lemma EmitNext(candidates: seq<ReadyEntry>, marks: seq<Disposition>, k: nat)
    requires k < |candidates| <= |marks|
    ensures DispatchedJobs(candidates[..k + 1], marks)
         == DispatchedJobs(candidates[..k], marks) + if marks[k].Dispatched? then [candidates[k].job] else []
    ensures PendingJobs(candidates[..k + 1], marks)
         == PendingJobs(candidates[..k], marks) + if marks[k].Pending? then {candidates[k].job} else {}
  {
    var more := candidates[..k + 1];
    assert more[..k] == candidates[..k] && more[k] == candidates[k];
    var before, now := PendingJobs(candidates[..k], marks), PendingJobs(more, marks);
    forall i | 0 <= i < k ensures more[i] == candidates[..k][i] {}
    assert forall x :: x in now <==> x in before || (marks[k].Pending? && x == candidates[k].job);
  }

  predicate DispatchedAt(candidates: seq<ReadyEntry>, marks: seq<Disposition>, x: JobId, i: nat)
    requires |candidates| <= |marks|
  {
    i < |candidates| && candidates[i].job == x && marks[i].Dispatched?
  }

  /** A dispatched job is one of the candidates that were marked so. */
  lemma {:induction false} DispatchedIsCandidate(candidates: seq<ReadyEntry>, marks: seq<Disposition>, x: JobId)
    requires |candidates| <= |marks|
    ensures x in DispatchedJobs(candidates, marks) <==> exists i: nat :: DispatchedAt(candidates, marks, x, i)
  {
    if candidates != [] {
      var n := |candidates| - 1;
      var front := candidates[..n];
      DispatchedIsCandidate(front, marks, x);
      forall i: nat | i < n ensures DispatchedAt(front, marks, x, i) <==> DispatchedAt(candidates, marks, x, i) {}
      assert x in DispatchedJobs(candidates, marks) <==>
          x in DispatchedJobs(front, marks) || DispatchedAt(candidates, marks, x, n);
    }
  }

  lemma EmitStep(table: seq<nat>, candidates: seq<ReadyEntry>, marks: seq<Disposition>, k: nat, jobs: Jobs, q: Queues,
                 ledgers: seq<Ledger>,
                 now: u64, quantum: nat, jobs': Jobs, q': Queues, ledgers': seq<Ledger>,
                 jobs'': Jobs, q'': Queues, ledgers'': seq<Ledger>, score: Score)
    requires k < |candidates| <= |marks| && Small(jobs) && IsTable(table) && quantum > 0 && Candidates(candidates, jobs)
    requires Emitted(table, candidates, marks, k, jobs, q, ledgers, now, quantum, jobs', q', ledgers')
    requires jobs'' == if marks[k].Dispatched? then AfterMove(jobs', candidates[k].job, JobState.Running) else jobs'
    requires q'' == if marks[k].Pending? then ReadySets.Enqueue(q', candidates[k].cls, candidates[k].job, score) else q'
    requires ledgers'' == if marks[k].Dispatched?
              then TakenFor(table, ledgers', Arenas.Value(jobs, candidates[k].job), now, quantum) else ledgers'
    ensures Emitted(table, candidates, marks, k + 1, jobs, q, ledgers, now, quantum, jobs'', q'', ledgers'')
  {
    EmitNext(candidates, marks, k);
    var x, front := candidates[k].job, DispatchedJobs(candidates[..k], marks);
    FrontDiffers(candidates, marks, k, jobs);
    if marks[k].Dispatched? {
      DispatchOneMore(jobs, front, x);
      var ids := front + [x];
      assert ids[..|ids| - 1] == front && ids[|ids| - 1] == x;
    } else {
      assert front + [] == front;
    }
    if marks[k].Pending? {
      JoinedOneMore(jobs, q, PendingJobs(candidates[..k], marks), q', x, score);
    } else {
      assert PendingJobs(candidates[..k], marks) + {} == PendingJobs(candidates[..k], marks);
    }
  }

  lemma FrontDiffers(candidates: seq<ReadyEntry>, marks: seq<Disposition>, k: nat, jobs: Jobs)
    requires k < |candidates| <= |marks| && Candidates(candidates, jobs)
    ensures candidates[k].job !in DispatchedJobs(candidates[..k], marks)
  {
    DispatchedIsCandidate(candidates[..k], marks, candidates[k].job);
    forall i | 0 <= i < k ensures candidates[..k][i].job != candidates[k].job {
      assert EntryJobs(candidates)[i] != EntryJobs(candidates)[k];
    }
  }

  lemma StillReady(jobs: Jobs, front: seq<JobId>, x: JobId)
    requires Small(jobs) && In(jobs, x, JobState.Ready) && x !in front
    ensures In(AfterDispatch(jobs, front), x, JobState.Ready)
    ensures Arenas.Value(AfterDispatch(jobs, front), x) == Arenas.Value(jobs, x)
  {}

  lemma NonZeroCandidates(candidates: seq<ReadyEntry>, jobs: Jobs)
    requires Candidates(candidates, jobs) && ReadyNonZero(jobs)
    ensures NonZero(candidates, jobs)
  {
    forall i | 0 <= i < |candidates| ensures Arenas.Value(jobs, candidates[i].job).request != ZERO {
      assert EntryJobs(candidates)[i] in EntryJobs(candidates);
    }
  }

  lemma DepartedLive(jobs: Jobs, q: Queues, ids: set<JobId>, q': Queues)
    requires QueueOk(jobs, q) && Departed(q, ids, q')
    ensures QueuedLive(jobs, q')
  {}

  lemma {:induction false} DispatchedReady(candidates: seq<ReadyEntry>, marks: seq<Disposition>, jobs: Jobs)
    requires |candidates| <= |marks| && Candidates(candidates, jobs)
    ensures AllReady(jobs, DispatchedJobs(candidates, marks))
  {
    if candidates != [] {
      var n := |candidates| - 1;
      var ids := EntryJobs(candidates);
      assert EntryJobs(candidates[..n]) == ids[..n];
      DispatchedReady(candidates[..n], marks, jobs);
      FrontDiffers(candidates, marks, n, jobs);
      assert ids[n] in ids;
    }
  }

  /** Nothing is dropped, so the queue lost exactly the dispatched jobs. */
  lemma EmittedDeparted(candidates: seq<ReadyEntry>, marks: seq<Disposition>, jobs: Jobs, q: Queues, drained: Queues,
                        q': Queues)
    requires |candidates| <= |marks| && Candidates(candidates, jobs) && QueueOk(jobs, q)
    requires forall i :: 0 <= i < |candidates| ==> !marks[i].Dropped?
    requires Departed(q, Elements(EntryJobs(candidates)), drained)
    requires Joined(jobs, drained, PendingJobs(candidates, marks), q')
    ensures Departed(q, Elements(DispatchedJobs(candidates, marks)), q')
  {
    var out := DispatchedJobs(candidates, marks);
    forall c: PriorityClass, x ensures Queued(q', c, x) <==> Queued(q, c, x) && x !in Elements(out) {
      DispatchedIsCandidate(candidates, marks, x);
      assert Queued(q, c, x) <==> In(jobs, x, JobState.Ready) && Arenas.Value(jobs, x).priorityClass == c;
      if x in EntryJobs(candidates) {
        var i :| 0 <= i < |candidates| && EntryJobs(candidates)[i] == x;
        OneMark(candidates, marks, jobs, i);
      }
    }
  }

  lemma OneMark(candidates: seq<ReadyEntry>, marks: seq<Disposition>, jobs: Jobs, i: nat)
    requires i < |candidates| <= |marks| && Candidates(candidates, jobs)
    requires !marks[i].Dropped?
    ensures candidates[i].job in PendingJobs(candidates, marks) <==> marks[i].Pending?
    ensures (exists k: nat :: DispatchedAt(candidates, marks, candidates[i].job, k)) <==> marks[i].Dispatched?
  {
    forall k: nat | k < |candidates| && candidates[k].job == candidates[i].job ensures k == i {
      assert EntryJobs(candidates)[k] == EntryJobs(candidates)[i];
    }
    assert marks[i].Dispatched? ==> DispatchedAt(candidates, marks, candidates[i].job, i);
  }

  // ---- who a cycle looks at ----

  /** The front of the queues: whoever is in `ids` precedes whoever is not, and with room left nobody is left out. */
  ghost predicate Foremost(q: Queues, ids: seq<JobId>, limit: nat) {
    && |ids| <= limit
    && (|ids| < limit ==> forall c: PriorityClass, x :: Queued(q, c, x) ==> x in ids)
    && forall e, x :: InQueues(q, e) && InQueues(q, x) && e.job in ids && x.job !in ids ==> Precedes(e, x)
  }

  lemma DrainedForemost(jobs: Jobs, q: Queues, out: seq<ReadyEntry>, rest: Queues, limit: nat)
    requires QueueOk(jobs, q) && Drains(q, out, rest) && |out| <= limit && (|out| < limit ==> NothingQueued(rest))
    ensures Foremost(q, EntryJobs(out), limit)
  {
    DrainsPartition(q, out, rest);
    DrainsTop(q, out, rest);
    var ids := EntryJobs(out);
    forall i | 0 <= i < |out| ensures out[i].job in ids { assert ids[i] == out[i].job; }
    forall c: PriorityClass, x | |out| < limit && Queued(q, c, x) ensures x in ids {
      assert InQueues(q, ReadyEntry(c, x, q.Of(c)[x]));
    }
    forall e, x | InQueues(q, e) && InQueues(q, x) && e.job in ids && x.job !in ids ensures Precedes(e, x) {
      var i :| 0 <= i < |ids| && ids[i] == e.job;
      assert out[i] in out && Queued(q, out[i].cls, out[i].job) && Queued(q, e.cls, e.job);
      assert e == out[i];
    }
  }

  /** A job's score as of `now`. */
  function PresentScore(table: seq<nat>, ledgers: seq<Ledger>, job: Job, now: u64, config: Config): Score
    requires |table| == STEPS
  {
    ScoreOf(job, now, config, FactorIn(table, ledgers, job.account))
  }

  /** Every entry has its present score. */
  ghost predicate UpToDate(table: seq<nat>, jobs: Jobs, ledgers: seq<Ledger>, now: u64, config: Config,
                           entries: seq<ReadyEntry>) {
    && |table| == STEPS
    && forall i :: 0 <= i < |entries| ==>
        && Arenas.Live(jobs, entries[i].job)
        && entries[i].score == PresentScore(table, ledgers, Arenas.Value(jobs, entries[i].job), now, config)
  }

  /** The front of the queues, in order of present score. */
  ghost predicate Shortlist(table: seq<nat>, jobs: Jobs, b: Books, now: u64, config: Config,
                            candidates: seq<ReadyEntry>) {
    && IsTable(table) && Candidates(candidates, jobs) && Ordered(candidates)
    && Foremost(b.queues, EntryJobs(candidates), config.maxCandidates)
    && UpToDate(table, jobs, Touched(table, b.ledgers, now, Quantum(config.halfLife)), now, config, candidates)
  }

  /** Sealed: `Unlocked` in scope unfolds it. */
  ghost predicate Shortlisted(table: seq<nat>, jobs: Jobs, b: Books, now: u64, config: Config,
                              candidates: seq<ReadyEntry>) {
    forall k: int :: Unlocked(k) ==> Shortlist(table, jobs, b, now, config, candidates)
  }

  /** Sorting what was drained and rescored gives the shortlist. */
  lemma SortedShortlist(table: seq<nat>, jobs: Jobs, b: Books, now: u64, config: Config, entries: seq<ReadyEntry>,
                        out: seq<ReadyEntry>)
    requires IsTable(table) && Candidates(entries, jobs) && Foremost(b.queues, EntryJobs(entries), config.maxCandidates)
    requires UpToDate(table, jobs, Touched(table, b.ledgers, now, Quantum(config.halfLife)), now, config, entries)
    requires Ordered(out) && |out| == |entries| && forall x :: x in out <==> x in entries
    ensures Shortlist(table, jobs, b, now, config, out)
    ensures Elements(EntryJobs(out)) == Elements(EntryJobs(entries))
  {
    SortedCandidates(entries, out, jobs);
    var ids, was := EntryJobs(out), EntryJobs(entries);
    forall x ensures x in ids <==> x in was { assert x in Elements(ids) <==> x in Elements(was); }
    forall i | 0 <= i < |out| ensures out[i] in entries {}
  }

  lemma {:induction false} AllCandidatesLive(candidates: seq<ReadyEntry>, jobs: Jobs, i: nat)
    requires i <= |candidates| && forall k :: 0 <= k < |candidates| ==> Arenas.Live(jobs, candidates[k].job)
    ensures LiveJobs(candidates, jobs, i) == EntryJobs(candidates)[i..]
    decreases |candidates| - i
  {
    if i < |candidates| { AllCandidatesLive(candidates, jobs, i + 1); }
  }

  /** Packing takes the best candidates, in order. */
  lemma PackedAreBest(plan: Plan, jobs: Jobs, slots: seq<WorkerSlot>, running: seq<RunningJob>, now: u64,
                      budget: Budget, slots': seq<WorkerSlot>)
    requires Candidates(plan.candidates, jobs)
    requires var planned := Planned(plan, jobs, slots, running, now, budget, slots'); planned
    ensures JobsOf(plan.packed) <= EntryJobs(plan.candidates)
  {
    PackIsPrefix(plan.candidates, jobs, slots, budget, 0, 0, 0);
    AllCandidatesLive(plan.candidates, jobs, 0);
    assert EntryJobs(plan.candidates)[0..] == EntryJobs(plan.candidates);
  }

  /** Whoever is not among the first `n` on the shortlist is of no higher class than those are. */
  lemma ShortlistRespectsClass(table: seq<nat>, jobs: Jobs, b: Books, now: u64, config: Config,
                               candidates: seq<ReadyEntry>, n: nat, i: nat, x: JobId)
    requires QueueOk(jobs, b.queues) && Shortlist(table, jobs, b, now, config, candidates) && i < n <= |candidates|
    requires In(jobs, x, JobState.Ready) && forall k :: 0 <= k < n ==> candidates[k].job != x
    ensures Arenas.Value(jobs, x).priorityClass.Ordinal() <= candidates[i].cls.Ordinal()
  {
    var ids := EntryJobs(candidates);
    if x in ids {
      var k :| 0 <= k < |ids| && ids[k] == x;
      assert Precedes(candidates[i], candidates[k]);
    } else {
      var job, other := Arenas.Value(jobs, ids[i]), Arenas.Value(jobs, x);
      assert ids[i] in ids;
      assert Queued(b.queues, job.priorityClass, ids[i]) && Queued(b.queues, other.priorityClass, x);
      var e := ReadyEntry(job.priorityClass, ids[i], b.queues.Of(job.priorityClass)[ids[i]]);
      var y := ReadyEntry(other.priorityClass, x, b.queues.Of(other.priorityClass)[x]);
      assert Precedes(e, y);
    }
  }

  /** Packing passes over nobody of a higher class than one it places. */
  lemma PackingRespectsClass(table: seq<nat>, plan: Plan, jobs: Jobs, b: Books, slots: seq<WorkerSlot>,
                             running: seq<RunningJob>, now: u64, config: Config, slots': seq<WorkerSlot>, d: Decision,
                             x: JobId)
    requires Callable(jobs, b) && Shortlisted(table, jobs, b, now, config, plan.candidates)
    requires var planned := Planned(plan, jobs, slots, running, now, config.budget, slots'); planned
    requires d in plan.packed && In(jobs, x, JobState.Ready) && x !in JobsOf(plan.packed)
    ensures Arenas.Live(jobs, d.job)
    ensures Arenas.Value(jobs, x).priorityClass.Ordinal() <= Arenas.Value(jobs, d.job).priorityClass.Ordinal()
  {
    assert Unlocked(0);
    var candidates, ids := plan.candidates, JobsOf(plan.packed);
    PackedAreBest(plan, jobs, slots, running, now, config.budget, slots');
    var i :| 0 <= i < |plan.packed| && plan.packed[i] == d;
    assert ids[i] == d.job && candidates[i].job == d.job;
    forall k | 0 <= k < |ids| ensures candidates[k].job != x { assert ids[k] in ids; }
    ShortlistRespectsClass(table, jobs, b, now, config, candidates, |ids|, i, x);
  }

  class Scheduler {
    const ready: ReadySet
    const deps: DependencyTracker
    const fairshare: FairShare

    /** Every handle that ever completed. */
    ghost var done: set<JobId>

    ghost predicate Intact()
      reads ready.low, ready.normal, ready.high, ready.urgent, fairshare
    {
      ready.Valid() && fairshare.Valid()
    }

    /** Sealed: `Unlocked` in scope unfolds it. */
    ghost predicate Parts()
      reads ready.low, ready.normal, ready.high, ready.urgent, fairshare
    {
      forall k: int :: Unlocked(k) ==> Intact()
    }

    ghost function Books(): Books
      reads this, ready.low, ready.normal, ready.high, ready.urgent, deps, fairshare
    {
      Lifecycle.Books(done, ready.View(), deps.Contents(), fairshare.ledgers)
    }

    constructor Empty()
      ensures Parts() && fresh(ready) && fresh(ready.low) && fresh(ready.normal) && fresh(ready.high)
        && fresh(ready.urgent) && fresh(deps) && fresh(fairshare)
      ensures Books() == Lifecycle.Books({}, NOTHING, Tables([], [], []), [])
    {
      var r := new ReadySet.Empty();
      var d := new DependencyTracker.Empty();
      var f := new FairShare.Empty();
      ready, deps, fairshare, done := r, d, f, {};
    }

    /** Queues a live job. */
    method Enqueue(id: JobId, jobs: Jobs, score: Score)
      requires ready.Valid() && Small(jobs) && Arenas.Live(jobs, id) && QueuedLive(jobs, ready.View())
      modifies ready.low, ready.normal, ready.high, ready.urgent
      ensures ready.Valid()
        && ready.View() == ReadySets.Enqueue(old(ready.View()), Arenas.Value(jobs, id).priorityClass, id, score)
    {
      var cls := Arenas.Value(jobs, id).priorityClass;
      forall x | x in ready.View().Of(cls) && x.index == id.index ensures x == id {
        assert Queued(ready.View(), cls, x);
      }
      ready.Insert(cls, id, score);
    }

    /** The verdict on a job about to be inserted under `id`; nothing changes. */
    method CheckSubmit(id: JobId, job: Job, jobs: Jobs) returns (c: Classified, error: Outcome)
      ensures job.account < MAX_ACCOUNTS ==> ClassifiesAs(jobs, id, job.deps, c)
      ensures error == None <==> job.account < MAX_ACCOUNTS && c.Verdict?
    {
      if job.account >= MAX_ACCOUNTS { return Unresolved(id, id), Some(BadAccount(job.account)); }
      c := deps.Classify(id, job.deps, jobs);
      error := if c.Unresolved? then Some(BadDependency(id, c.dependency)) else None;
    }

    /** An inserted job takes the state its dependencies call for and is tracked, queued and charged accordingly. */
    method Submit(id: JobId, jobs: Jobs, now: u64, config: Config) returns (c: Classified, error: Outcome, after: Jobs)
      requires Parts() && Small(jobs) && Admissible(jobs, Books())
      modifies ready.low, ready.normal, ready.high, ready.urgent, deps, fairshare
      ensures Parts() && Small(after)
      ensures error == None <==>
                && In(jobs, id, JobState.Submitted) && Arenas.Value(jobs, id).account < MAX_ACCOUNTS
                && c.Verdict?
      ensures In(jobs, id, JobState.Submitted) && Arenas.Value(jobs, id).account < MAX_ACCOUNTS ==>
                ClassifiesAs(jobs, id, Arenas.Value(jobs, id).deps, c)
      ensures error != None ==>
                after == jobs && ready.View() == old(ready.View()) && deps.Contents() == old(deps.Contents())
      ensures error == None ==>
                var job := Arenas.Value(jobs, id);
                && after == AfterMove(jobs, id, StateFor(c.readiness))
                && (if c.readiness.CanRun? then
                      ready.View() == ReadySets.Enqueue(old(ready.View()), job.priorityClass, id,
                          ScoreOf(job, now, config, fairshare.Factor(job.account)))
                    else ready.View() == old(ready.View()))
      ensures Opened(old(fairshare.ledgers), fairshare.ledgers)
      ensures error == None ==> SubmissionStep(jobs, old(Books()), id, c.readiness, Books())
    {
      assert Unlocked(0);
      QueueIsLive(jobs, ready.View());
      c, after := Unresolved(id, id), jobs;
      var found := Arenas.Get(jobs, id);
      if found == None { error := Some(UnknownJob(id)); return; }
      var job := found.value;
      if !job.state.Submitted? { error := Some(NotSubmitted(id)); return; }
      var known := fairshare.Ensure(job.account);
      if !known { error := Some(BadAccount(job.account)); return; }
      c := deps.Register(id, job.deps, jobs);
      if c.Unresolved? { error := Some(BadDependency(id, c.dependency)); return; }
      error, after := None, AfterMove(jobs, id, StateFor(c.readiness));
      if c.readiness.CanRun? {
        EnqueueJoins(jobs, ready.View(), id, ScoreOf(job, now, config, fairshare.Factor(job.account)));
        Enqueue(id, after, ScoreOf(job, now, config, fairshare.Factor(job.account)));
      }
    }

    /** Only the state changes: until the worker confirms, the cpu is still in use. */
    method Preempt(id: JobId, jobs: Jobs) returns (error: Outcome, after: Jobs)
      requires Small(jobs)
      ensures error == None <==> In(jobs, id, JobState.Running)
      ensures after == if error == None then AfterMove(jobs, id, JobState.Preempted) else jobs
    {
      after := jobs;
      var found := Arenas.Get(jobs, id);
      if found == None { error := Some(UnknownJob(id)); return; }
      if !found.value.state.CanTransitionTo(JobState.Preempted) {
        error := Some(IllegalTransition(found.value.state, JobState.Preempted));
        return;
      }
      error, after := None, AfterMove(jobs, id, JobState.Preempted);
    }

    /** Returns a job to the ready set. Meant for Running or Preempted jobs; the code also takes any state
        with an edge to Ready. */
    method Requeue(id: JobId, jobs: Jobs, now: u64, config: Config) returns (error: Outcome, after: Jobs)
      requires Parts() && Small(jobs) && Callable(jobs, Books())
      modifies ready.low, ready.normal, ready.high, ready.urgent, fairshare
      ensures Parts()
      ensures error == None <==> In(jobs, id, JobState.Running) || MayBecome(jobs, id, JobState.Ready)
      ensures error != None ==>
                after == jobs && ready.View() == old(ready.View()) && fairshare.ledgers == old(fairshare.ledgers)
      ensures error == None ==>
                var job := Arenas.Value(jobs, id);
                && after == AfterMove(jobs, id, JobState.Ready)
                && GaveBack(fairshare.table, old(fairshare.ledgers), job, now, Quantum(config.halfLife),
                            fairshare.ledgers)
                && ready.View() == ReadySets.Enqueue(old(ready.View()), job.priorityClass, id,
                    ScoreOf(job, now, config, fairshare.Factor(job.account)))
      ensures error == None && StateOf(jobs, id).HoldsCpu() ==>
                MoveStep(jobs, old(Books()), id, JobState.Ready, Books())
    {
      assert Unlocked(0);
      QueueIsLive(jobs, ready.View());
      after := jobs;
      var found := Arenas.Get(jobs, id);
      if found == None { error := Some(UnknownJob(id)); return; }
      var job := found.value;
      // From Running by way of Preempted, in one call.
      var from := if job.state.Running? then JobState.Preempted else job.state;
      if !from.CanTransitionTo(JobState.Ready) { error := Some(IllegalTransition(from, JobState.Ready)); return; }
      error, after := None, AfterMove(jobs, id, JobState.Ready);
      GivenBackMoves(fairshare.table, fairshare.ledgers, job.account, job.request.cpu, now, Quantum(config.halfLife));
      fairshare.OnRelease(job.account, job.request.cpu, now, Quantum(config.halfLife));
      EnqueueJoins(jobs, ready.View(), id, ScoreOf(job, now, config, fairshare.Factor(job.account)));
      Enqueue(id, after, ScoreOf(job, now, config, fairshare.Factor(job.account)));
    }

    /** A logged dispatch taken over as it was: out of the queue, charged, Running. */
    method RestoreRunning(id: JobId, jobs: Jobs, now: u64, config: Config) returns (error: Outcome, after: Jobs)
      requires Parts() && Small(jobs)
      modifies ready.low, ready.normal, ready.high, ready.urgent, fairshare
      ensures Parts()
      ensures error == None <==> In(jobs, id, JobState.Ready)
      ensures !Arenas.Live(jobs, id) ==> ready.View() == old(ready.View())
      ensures Arenas.Live(jobs, id) ==>
                ready.View() == Dequeue(old(ready.View()), Arenas.Value(jobs, id).priorityClass, id)
      ensures error != None ==> after == jobs && fairshare.ledgers == old(fairshare.ledgers)
      ensures error == None ==>
                var job := Arenas.Value(jobs, id);
                && after == AfterMove(jobs, id, JobState.Running)
                && Took(fairshare.table, old(fairshare.ledgers), job, now, Quantum(config.halfLife), fairshare.ledgers)
                && MoveStep(jobs, old(Books()), id, JobState.Running, Books())
    {
      assert Unlocked(0);
      after := jobs;
      var found := Arenas.Get(jobs, id);
      if found == None { error := Some(UnknownJob(id)); return; }
      var job := found.value;
      var present := ready.Remove(job.priorityClass, id);
      if !job.state.CanTransitionTo(JobState.Running) { error := Some(IllegalTransition(job.state,
          JobState.Running)); return; }
      error, after := None, AfterMove(jobs, id, JobState.Running);
      DequeuePulls(jobs, old(ready.View()), id);
      TakenMoves(fairshare.table, fairshare.ledgers, job.account, job.request.cpu, now, Quantum(config.halfLife));
      fairshare.OnDispatch(job.account, job.request.cpu, now, Quantum(config.halfLife));
    }

    /** Promotes `x` if it may become Ready. */
    method Promote(x: JobId, jobs: Jobs, now: u64, config: Config) returns (after: Jobs, ghost score: Score)
      requires Intact() && Small(jobs) && QueuedLive(jobs, ready.View())
      modifies ready.low, ready.normal, ready.high, ready.urgent
      ensures ready.Valid()
      ensures after == if MayBecome(jobs, x, JobState.Ready) then AfterMove(jobs, x, JobState.Ready) else jobs
      ensures ready.View() == if MayBecome(jobs, x, JobState.Ready)
                              then ReadySets.Enqueue(old(ready.View()), Arenas.Value(jobs, x).priorityClass, x, score)
                                  else old(ready.View())
    {
      after, score := jobs, 0;
      if MayBecome(jobs, x, JobState.Ready) {
        var job := Arenas.Value(jobs, x);
        after := AfterMove(jobs, x, JobState.Ready);
        var s := ScoreOf(job, now, config, fairshare.Factor(job.account));
        Enqueue(x, after, s);
        score := s;
      }
    }

    /** Promotes whichever of `promoted` may become Ready, queueing each. */
    method PromoteAll(promoted: seq<JobId>, jobs: Jobs, now: u64, config: Config) returns (after: Jobs)
      requires Intact() && Small(jobs) && QueuedLive(jobs, ready.View()) && NoDuplicates(promoted)
      modifies ready.low, ready.normal, ready.high, ready.urgent
      ensures ready.Valid()
      ensures Restated(jobs, promoted, JobState.Ready, after)
      ensures Joined(jobs, old(ready.View()), Able(jobs, promoted, JobState.Ready), ready.View())
    {
      ghost var v := ready.View();
      ghost var able: set<JobId> := {};
      RestateNothing(jobs);
      after := jobs;
      for k := 0 to |promoted|
        invariant ready.Valid()
        invariant Restated(jobs, promoted[..k], JobState.Ready, after)
        invariant able == Able(jobs, promoted[..k], JobState.Ready) && Joined(jobs, v, able, ready.View())
      {
        var x := promoted[k];
        ghost var q, prev := ready.View(), after;
        JoinedLive(jobs, after, v, able, q);
        ghost var score;
        after, score := Promote(x, after, now, config);
        VisitStep(jobs, promoted, k, JobState.Ready, prev, after);
        AbleOneMore(jobs, promoted, k, JobState.Ready);
        if MayBecome(jobs, x, JobState.Ready) {
          JoinedOneMore(jobs, v, able, q, x, score);
          able := able + {x};
        }
      }
      assert promoted[..|promoted|] == promoted;
    }

    /** `id` ends well: its charge goes, and whoever waited for it last becomes Ready. */
    method OnCompleted(id: JobId, jobs: Jobs, now: u64,
                       config: Config) returns (error: Outcome, after: Jobs, promoted: seq<JobId>)
      requires Parts() && Small(jobs) && Callable(jobs, Books())
      modifies ready.low, ready.normal, ready.high, ready.urgent, deps, fairshare, this`done
      ensures Parts()
      ensures error == None <==> MayBecome(jobs, id, JobState.Completed)
      ensures error != None ==> after == jobs && Books() == old(Books())
      ensures error == None ==>
                && CompletionStep(jobs, old(Books()), id, after, Books(), promoted)
                && GaveBack(fairshare.table, old(fairshare.ledgers), Arenas.Value(jobs, id), now,
                            Quantum(config.halfLife), fairshare.ledgers)
    {
      assert Unlocked(0);
      QueueIsLive(jobs, ready.View());
      after, promoted := jobs, [];
      var found := Arenas.Get(jobs, id);
      if found == None { error := Some(UnknownJob(id)); return; }
      var job := found.value;
      if !job.state.CanTransitionTo(JobState.Completed) { error := Some(IllegalTransition(job.state,
          JobState.Completed)); return; }
      error, after, done := None, AfterMove(jobs, id, JobState.Completed), done + {id};
      GivenBackMoves(fairshare.table, fairshare.ledgers, job.account, job.request.cpu, now, Quantum(config.halfLife));
      fairshare.OnRelease(job.account, job.request.cpu, now, Quantum(config.halfLife));
      promoted := deps.OnCompleted(id);
      ghost var moved := after;
      JoinedLive(jobs, moved, ready.View(), {}, ready.View());
      after := PromoteAll(promoted, after, now, config);
      JoinedSame(jobs, moved, old(ready.View()), Able(moved, promoted, JobState.Ready), ready.View(),
                 map[id := JobState.Completed]);
    }

    /** One job of the cascade: out of its queue if it was in one, then Cancelled. */
    method Drop(x: JobId, jobs: Jobs) returns (after: Jobs)
      requires ready.Valid() && Small(jobs)
      modifies ready.low, ready.normal, ready.high, ready.urgent
      ensures ready.Valid()
      ensures after == if MayBecome(jobs, x, JobState.Cancelled) then AfterMove(jobs, x, JobState.Cancelled) else jobs
      ensures ready.View() == if In(jobs, x, JobState.Ready)
                              then Dequeue(old(ready.View()), Arenas.Value(jobs, x).priorityClass, x)
                                  else old(ready.View())
    {
      after := jobs;
      var found := Arenas.Get(jobs, x);
      if found == None { return; }
      if found.value.state.Ready? {
        var present := ready.Remove(found.value.priorityClass, x);
      }
      if found.value.state.CanTransitionTo(JobState.Cancelled) { after := AfterMove(jobs, x, JobState.Cancelled); }
    }

    method ApplyCascade(cascade: seq<JobId>, jobs: Jobs) returns (after: Jobs)
      requires ready.Valid() && Small(jobs) && NoDuplicates(cascade)
      modifies ready.low, ready.normal, ready.high, ready.urgent
      ensures ready.Valid()
      ensures Restated(jobs, cascade, JobState.Cancelled, after)
      ensures Pulled(jobs, old(ready.View()), cascade, ready.View())
    {
      ghost var v := ready.View();
      RestateNothing(jobs);
      after := jobs;
      for k := 0 to |cascade|
        invariant ready.Valid()
        invariant Restated(jobs, cascade[..k], JobState.Cancelled, after)
        invariant Pulled(jobs, v, cascade[..k], ready.View())
      {
        ghost var q, prev := ready.View(), after;
        after := Drop(cascade[k], after);
        VisitStep(jobs, cascade, k, JobState.Cancelled, prev, after);
        PulledOneMore(jobs, v, cascade, k, q, ready.View());
      }
      assert cascade[..|cascade|] == cascade;
    }

    /** Retires `id` from the tracker and cancels whatever waited for it. */
    method TakeDown(id: JobId, jobs: Jobs) returns (cascade: seq<JobId>, after: Jobs)
      requires ready.Valid() && Small(jobs) && Shape(deps.Contents())
      modifies ready.low, ready.normal, ready.high, ready.urgent, deps
      ensures ready.Valid()
      ensures Terminates(old(deps.Contents()), deps.Contents(), id, cascade)
      ensures Restated(jobs, cascade, JobState.Cancelled, after)
      ensures Pulled(jobs, old(ready.View()), cascade, ready.View())
    {
      cascade := deps.OnTerminated(id);
      after := ApplyCascade(cascade, jobs);
    }

    /** Moves a job to the final state `state`: off the queue, off its cpu, and everything downstream with it. */
    method End(id: JobId, jobs: Jobs, state: JobState, now: u64,
               config: Config) returns (after: Jobs, cascade: seq<JobId>)
      requires Intact() && Small(jobs) && Shape(deps.Contents()) && Arenas.Live(jobs, id)
      modifies ready.low, ready.normal, ready.high, ready.urgent, deps, fairshare
      ensures Intact()
      ensures TerminationStep(jobs, old(Books()), id, state, after, Books(), cascade)
      ensures (if StateOf(jobs, id).HoldsCpu()
                    then GaveBack(fairshare.table, old(fairshare.ledgers), Arenas.Value(jobs, id), now,
                                  Quantum(config.halfLife), fairshare.ledgers)
                    else fairshare.ledgers == old(fairshare.ledgers))
    {
      var job := Arenas.Value(jobs, id);
      ghost var q := ready.View();
      if job.state.Ready? {
        var present := ready.Remove(job.priorityClass, id);
      }
      ghost var mid := ready.View();
      if job.state.HoldsCpu() {
        GivenBackMoves(fairshare.table, fairshare.ledgers, job.account, job.request.cpu, now, Quantum(config.halfLife));
        fairshare.OnRelease(job.account, job.request.cpu, now, Quantum(config.halfLife));
      }
      cascade, after := TakeDown(id, AfterMove(jobs, id, state));
      WithdrawnInTwo(jobs, q, mid, ready.View(), id, state, cascade);
    }

    /** `id` ends badly, and with it everything reachable along waits. */
    method OnFailed(id: JobId, jobs: Jobs, now: u64,
                    config: Config) returns (error: Outcome, after: Jobs, cascade: seq<JobId>)
      requires Parts() && Small(jobs) && Callable(jobs, Books())
      modifies ready.low, ready.normal, ready.high, ready.urgent, deps, fairshare
      ensures Parts()
      ensures error == None <==> MayBecome(jobs, id, JobState.Failed)
      ensures error != None ==> after == jobs && Books() == old(Books())
      ensures error == None ==>
                && TerminationStep(jobs, old(Books()), id, JobState.Failed, after, Books(), cascade)
                && GaveBack(fairshare.table, old(fairshare.ledgers), Arenas.Value(jobs, id), now,
                            Quantum(config.halfLife), fairshare.ledgers)
    {
      assert Unlocked(0);
      after, cascade := jobs, [];
      var found := Arenas.Get(jobs, id);
      if found == None { error := Some(UnknownJob(id)); return; }
      if !found.value.state.CanTransitionTo(JobState.Failed) {
        error := Some(IllegalTransition(found.value.state, JobState.Failed));
        return;
      }
      error := None;
      after, cascade := End(id, jobs, JobState.Failed, now, config);
    }

    /** Cancels `id` from any open state, and cascades. */
    method Cancel(id: JobId, jobs: Jobs, now: u64,
                  config: Config) returns (error: Outcome, after: Jobs, cascade: seq<JobId>)
      requires Parts() && Small(jobs) && Callable(jobs, Books())
      modifies ready.low, ready.normal, ready.high, ready.urgent, deps, fairshare
      ensures Parts()
      ensures error == None <==> MayBecome(jobs, id, JobState.Cancelled)
      ensures error != None ==> after == jobs && Books() == old(Books())
      ensures error == None ==>
                && TerminationStep(jobs, old(Books()), id, JobState.Cancelled, after, Books(), cascade)
                && (if StateOf(jobs, id).HoldsCpu()
                    then GaveBack(fairshare.table, old(fairshare.ledgers), Arenas.Value(jobs, id), now,
                                  Quantum(config.halfLife), fairshare.ledgers)
                    else fairshare.ledgers == old(fairshare.ledgers))
    {
      assert Unlocked(0);
      after, cascade := jobs, [];
      var found := Arenas.Get(jobs, id);
      if found == None { error := Some(UnknownJob(id)); return; }
      if !found.value.state.CanTransitionTo(JobState.Cancelled) {
        error := Some(IllegalTransition(found.value.state, JobState.Cancelled));
        return;
      }
      error := None;
      after, cascade := End(id, jobs, JobState.Cancelled, now, config);
    }

    /** Each candidate's score as of `now`; order and handles unchanged. */
    method Rescore(entries: seq<ReadyEntry>, jobs: Jobs, now: u64, config: Config) returns (out: seq<ReadyEntry>)
      requires Intact() && Candidates(entries, jobs)
      requires forall account: u32 :: fairshare.Factor(account) == FactorIn(fairshare.table, fairshare.ledgers, account)
      ensures Candidates(out, jobs) && EntryJobs(out) == EntryJobs(entries)
      ensures UpToDate(fairshare.table, jobs, fairshare.ledgers, now, config, out)
    {
      out := [];
      for k := 0 to |entries|
        invariant |out| == k
        invariant forall i :: 0 <= i < k ==> out[i].job == entries[i].job && out[i].cls == entries[i].cls
        invariant forall i :: 0 <= i < k ==>
                    out[i].score == ScoreOf(Arenas.Value(jobs, entries[i].job), now, config,
                        fairshare.Factor(Arenas.Value(jobs, entries[i].job).account))
      {
        var job := Arenas.Value(jobs, entries[k].job);
        out := out + [entries[k].(score := ScoreOf(job, now, config, fairshare.Factor(job.account)))];
      }
      assert EntryJobs(out) == EntryJobs(entries);
    }

    /** Applies one candidate's disposition. */
    method EmitOne(entry: ReadyEntry, mark: Disposition, jobs: Jobs, now: u64, config: Config) returns (after: Jobs)
      requires Intact() && Small(jobs) && QueuedLive(jobs, ready.View())
      requires In(jobs, entry.job, JobState.Ready) && entry.cls == Arenas.Value(jobs, entry.job).priorityClass
      modifies ready.low, ready.normal, ready.high, ready.urgent, fairshare
      ensures Intact()
      ensures after == if mark.Dispatched? then AfterMove(jobs, entry.job, JobState.Running) else jobs
      ensures ready.View() == if mark.Pending?
                then ReadySets.Enqueue(old(ready.View()), entry.cls, entry.job, entry.score) else old(ready.View())
      ensures fairshare.ledgers == if mark.Dispatched?
                                   then TakenFor(fairshare.table, old(fairshare.ledgers),
                                       Arenas.Value(jobs, entry.job), now, Quantum(config.halfLife))
                                   else old(fairshare.ledgers)
    {
      after := jobs;
      match mark
      case Dispatched =>
        var job := Arenas.Value(jobs, entry.job);
        after := AfterMove(jobs, entry.job, JobState.Running);
        fairshare.OnDispatch(job.account, job.request.cpu, now, Quantum(config.halfLife));
      case Pending => Enqueue(entry.job, jobs, entry.score);
      case Dropped =>
    }

    /** Emit: dispatched jobs run and are charged, untouched entries go back. */
    method Emit(candidates: seq<ReadyEntry>, marks: seq<Disposition>, jobs: Jobs, now: u64,
                config: Config) returns (after: Jobs)
      requires Intact() && Small(jobs) && Candidates(candidates, jobs) && |candidates| <= |marks|
        && QueuedLive(jobs, ready.View())
      modifies ready.low, ready.normal, ready.high, ready.urgent, fairshare
      ensures Intact()
      ensures Emitted(fairshare.table, candidates, marks, |candidates|, jobs, old(ready.View()), old(fairshare.ledgers),
                      now, Quantum(config.halfLife),
                      after, ready.View(), fairshare.ledgers)
    {
      after := jobs;
      DispatchNone(jobs);
      ghost var q, ledgers := ready.View(), fairshare.ledgers;
      for k := 0 to |candidates|
        invariant Intact()
        invariant Emitted(fairshare.table, candidates, marks, k, jobs, q, ledgers, now, Quantum(config.halfLife), after,
                          ready.View(), fairshare.ledgers)
      {
        ghost var a, v, l := after, ready.View(), fairshare.ledgers;
        FrontDiffers(candidates, marks, k, jobs);
        StillReady(jobs, DispatchedJobs(candidates[..k], marks), candidates[k].job);
        JoinedLive(jobs, after, q, PendingJobs(candidates[..k], marks), ready.View());
        after := EmitOne(candidates[k], marks[k], after, now, config);
        EmitStep(fairshare.table, candidates, marks, k, jobs, q, ledgers, now, Quantum(config.halfLife), a, v, l,
                 after, ready.View(), fairshare.ledgers, candidates[k].score);
      }
    }

    /** Packing, and backfill if it met a misfit. */
    method PlanCycle(candidates: seq<ReadyEntry>, jobs: Jobs, inventory: SlotInventory, running: seq<RunningJob>,
                     now: u64, config: Config)
      returns (plan: Plan, marks: seq<Disposition>)
      requires Sound(inventory.slots) && NonZero(candidates, jobs)
      modifies inventory
      ensures Planned(plan, jobs, old(inventory.slots), running, now, config.budget, inventory.slots)
        && plan.candidates == candidates
      ensures Marks(candidates, jobs, marks, plan.Decisions())
    {
      ghost var slots := inventory.slots;
      var packed, head, exhausted, packMarks := Pack(candidates, jobs, inventory, config.budget);
      var mid := inventory.slots;
      marks := packMarks;
      PackCharges(candidates, jobs, slots, config.budget, 0, 0, 0);
      PackIsPrefix(candidates, jobs, slots, config.budget, 0, 0, 0);
      var filled, reservation := [], None;
      assert packed + filled == packed;
      if head.Some? {
        filled, reservation, marks := EasyBackfill(candidates, head.value, jobs, inventory, running, now,
            config.budget, packed, marks);
      }
      plan := Plan(candidates, packed, mid, head, exhausted, reservation, filled);
    }

    /** The candidates of one cycle: the front of the queues, rescored and sorted, off the queues meanwhile. */
    method TakeCandidates(jobs: Jobs, now: u64, config: Config) returns (candidates: seq<ReadyEntry>)
      requires Intact() && QueueOk(jobs, ready.View())
      modifies ready.low, ready.normal, ready.high, ready.urgent, fairshare
      ensures Intact() && Refreshed(old(fairshare.ledgers), fairshare.ledgers)
      ensures fairshare.ledgers == Touched(fairshare.table, old(fairshare.ledgers), now, Quantum(config.halfLife))
      ensures Shortlist(fairshare.table, jobs, old(Books()), now, config, candidates)
      ensures Departed(old(ready.View()), Elements(EntryJobs(candidates)), ready.View())
    {
      ghost var q, b := ready.View(), Books();
      fairshare.Refresh(now, Quantum(config.halfLife));
      var drained := ready.DrainOrdered(config.maxCandidates);
      DrainedCandidates(jobs, q, drained, ready.View());
      DrainedForemost(jobs, q, drained, ready.View(), config.maxCandidates);
      var rescored := Rescore(drained, jobs, now, config);
      candidates := SortCandidates(rescored);
      SortedShortlist(fairshare.table, jobs, b, now, config, rescored, candidates);
    }

    /** Runs one cycle over the ready set. */
    method RunCycle(jobs: Jobs, inventory: SlotInventory, running: seq<RunningJob>, now: u64, config: Config)
      returns (after: Jobs, plan: Plan, ghost current: seq<Ledger>)
      requires Parts() && Small(jobs) && Callable(jobs, Books()) && ReadyNonZero(jobs) && Sound(inventory.slots)
      modifies ready.low, ready.normal, ready.high, ready.urgent, fairshare, inventory
      ensures Parts()
      ensures CycleStep(fairshare.table, jobs, old(Books()), current, JobsOf(plan.Decisions()), now,
                        Quantum(config.halfLife), after, Books())
      ensures Planned(plan, jobs, old(inventory.slots), running, now, config.budget, inventory.slots)
      ensures Shortlisted(fairshare.table, jobs, old(Books()), now, config, plan.candidates)
    {
      assert Unlocked(0);
      ghost var q := ready.View();
      var candidates := TakeCandidates(jobs, now, config);
      ghost var rest := ready.View();
      current := fairshare.ledgers;
      NonZeroCandidates(candidates, jobs);
      var marks;
      plan, marks := PlanCycle(candidates, jobs, inventory, running, now, config);
      DepartedLive(jobs, q, Elements(EntryJobs(candidates)), rest);
      after := Emit(candidates, marks, jobs, now, config);
      assert candidates[..|candidates|] == candidates;
      EmittedDeparted(candidates, marks, jobs, q, rest, ready.View());
      DispatchedReady(candidates, marks, jobs);
    }

    /** The saved ledgers take over, if there are not too many. */
    method RestoreLedgers(saved: seq<Ledger>) returns (ok: bool)
      requires Parts()
      modifies fairshare
      ensures Parts() && ok == (|saved| <= MAX_ACCOUNTS)
      ensures fairshare.ledgers == if ok then saved else old(fairshare.ledgers)
    {
      assert Unlocked(0);
      ok := fairshare.Restore(saved);
    }
  }
}
