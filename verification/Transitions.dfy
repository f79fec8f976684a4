/** Each lifecycle call, on values: what it does to the arena and the books, and that the invariant survives it. */
module Transitions {
  import opened Domain
  import Arenas
  import opened Decay
  import opened Eligibility
  import opened ReadySets
  import opened FairShares
  import opened Lifecycle
  import opened Admission

  predicate MayBecome(jobs: Jobs, id: JobId, state: JobState) {
    Arenas.Live(jobs, id) && StateOf(jobs, id).CanTransitionTo(state)
  }

  /** The members of `ids` that may move to `state`. */
  function Able(jobs: Jobs, ids: seq<JobId>, state: JobState): set<JobId> {
    set x | x in ids && MayBecome(jobs, x, state)
  }

  /** A step predicate is unfolded only where this is mentioned. */
  predicate Unlocked(k: int) { k == k }

  predicate Small(jobs: Jobs) { |jobs.slots| <= U32_MAX }

  /** What the lifecycle calls ask of their caller; sealed. */
  ghost predicate Callable(jobs: Jobs, b: Books) {
    forall k: int :: Unlocked(k) ==> Shape(b.tables) && QueueOk(jobs, b.queues) && NoLoops(b.tables)
  }

  /** What `submit` asks of its caller; sealed. */
  ghost predicate Admissible(jobs: Jobs, b: Books) {
    forall k: int :: Unlocked(k) ==>
      |b.tables.owner| == |b.tables.unsatisfied| == |b.tables.dependents| && QueueOk(jobs, b.queues)
  }

  /** No job is its own dependent. */
  ghost predicate NoLoops(t: Tables)
    requires Shape(t)
  {
    forall id :: Tracked(t, id) ==> id !in t.dependents[id.index]
  }

  // ---- charges ----

  /** The ledgers after `job` gave its cpu back at `now`, exactly; sealed. */
  ghost predicate GaveBack(table: seq<nat>, ledgers: seq<Ledger>, job: Job, now: u64, quantum: nat,
                           ledgers': seq<Ledger>) {
    forall k: int :: Unlocked(k) ==>
      IsTable(table) && quantum > 0 && ledgers' == GivenBack(table, ledgers, job.account, job.request.cpu, now, quantum)
  }

  /** The ledgers after `job` took its cpu at `now`, exactly; sealed. */
  ghost predicate Took(table: seq<nat>, ledgers: seq<Ledger>, job: Job, now: u64, quantum: nat, ledgers': seq<Ledger>) {
    forall k: int :: Unlocked(k) ==>
      IsTable(table) && quantum > 0 && ledgers' == Taken(table, ledgers, job.account, job.request.cpu, now, quantum)
  }

  lemma TakenMoves(table: seq<nat>, ledgers: seq<Ledger>, account: nat, cpu: nat, now: u64, quantum: nat)
    requires IsTable(table) && quantum > 0
    ensures Moves(ledgers, Taken(table, ledgers, account, cpu, now, quantum), account, cpu, true)
  {}

  lemma GivenBackMoves(table: seq<nat>, ledgers: seq<Ledger>, account: nat, cpu: nat, now: u64, quantum: nat)
    requires IsTable(table) && quantum > 0
    ensures Moves(ledgers, GivenBack(table, ledgers, account, cpu, now, quantum), account, cpu, false)
  {}

  // ---- moves between Ready, Running and Preempted ----

  /** Those of `ids` that are Ready have left the queue. */
  ghost predicate Pulled(jobs: Jobs, q: Queues, ids: seq<JobId>, q': Queues) {
    forall c: PriorityClass, x :: Queued(q', c, x) <==>
      Queued(q, c, x) && !(x in ids && In(jobs, x, JobState.Ready) && Arenas.Value(jobs, x).priorityClass == c)
  }

  lemma JoinedOneMore(jobs: Jobs, q: Queues, ids: set<JobId>, q': Queues, id: JobId, score: Score)
    requires Joined(jobs, q, ids, q') && Arenas.Live(jobs, id)
    ensures Joined(jobs, q, ids + {id}, ReadySets.Enqueue(q', Arenas.Value(jobs, id).priorityClass, id, score))
  {}

  lemma EnqueueJoins(jobs: Jobs, q: Queues, id: JobId, score: Score)
    requires Arenas.Live(jobs, id)
    ensures Joined(jobs, q, {id}, ReadySets.Enqueue(q, Arenas.Value(jobs, id).priorityClass, id, score))
  {
    JoinedOneMore(jobs, q, {}, q, id, score);
    assert {} + {id} == {id};
  }

  lemma DequeuePulls(jobs: Jobs, q: Queues, id: JobId)
    requires In(jobs, id, JobState.Ready)
    ensures Pulled(jobs, q, [id], Dequeue(q, Arenas.Value(jobs, id).priorityClass, id))
  {}

  /** One job moves among Ready, Running and Preempted, and the books follow. */
  ghost predicate MoveFacts(jobs: Jobs, b: Books, id: JobId, state: JobState, b': Books) {
    && Arenas.Live(jobs, id)
    && var job := Arenas.Value(jobs, id);
    && b'.done == b.done && b'.tables == b.tables
    && (if state.Ready? then Joined(jobs, b.queues, {id}, b'.queues)
        else if job.state.Ready? then Pulled(jobs, b.queues, [id], b'.queues)
        else b'.queues == b.queues)
    && (if job.state.HoldsCpu() == state.HoldsCpu() then b'.ledgers == b.ledgers
        else Moves(b.ledgers, b'.ledgers, job.account, job.request.cpu, state.HoldsCpu()))
  }

  /** Sealed: `Unlocked` in scope unfolds it. */
  ghost predicate MoveStep(jobs: Jobs, b: Books, id: JobId, state: JobState, b': Books) {
    forall k: int :: Unlocked(k) ==> MoveFacts(jobs, b, id, state, b')
  }

  lemma MoveKeeps(jobs: Jobs, b: Books, id: JobId, state: JobState, b': Books)
    requires Inv(jobs, b) && IsOpenMove(jobs, id, state) && MoveStep(jobs, b, id, state, b')
    ensures Inv(AfterMove(jobs, id, state), b') && b'.done == b.done
  {
    assert Unlocked(0);
    OpenMove(jobs, b.done, b.tables, id, state);
    MovedQueue(jobs, b.queues, b'.queues, id, state);
    QueueMove(jobs, b.queues, b'.queues, id, state);
    if StateOf(jobs, id).HoldsCpu() == state.HoldsCpu() {
      QuietRestate(jobs, map[id := state], b.ledgers);
    } else {
      ChargeMoves(jobs, id, state, b.ledgers, b'.ledgers);
    }
  }

  lemma MovedQueue(jobs: Jobs, q: Queues, q': Queues, id: JobId, state: JobState)
    requires QueueOk(jobs, q) && IsOpenMove(jobs, id, state)
    requires if state.Ready? then Joined(jobs, q, {id}, q')
             else if StateOf(jobs, id).Ready? then Pulled(jobs, q, [id], q')
             else q' == q
    ensures Requeues(q, q', Arenas.Value(jobs, id).priorityClass, id, state.Ready?)
  {
    var cls := Arenas.Value(jobs, id).priorityClass;
    forall c: PriorityClass, x ensures Queued(q', c, x) <==> if x == id then state.Ready? && c == cls
        else Queued(q, c, x) {
      assert Queued(q, c, x) <==> In(jobs, x, JobState.Ready) && Arenas.Value(jobs, x).priorityClass == c;
    }
  }

  // ---- completion ----

  /** `id` completed and `promoted` is what the tracker released. */
  ghost predicate CompletionFacts(jobs: Jobs, b: Books, id: JobId, jobs': Jobs, b': Books, promoted: seq<JobId>) {
    && Arenas.Live(jobs, id) && Small(jobs) && Shape(b.tables)
    && var job, up := Arenas.Value(jobs, id), Able(AfterMove(jobs, id, JobState.Completed), promoted, JobState.Ready);
    && jobs' == Restate(AfterMove(jobs, id, JobState.Completed), All(up, JobState.Ready))
    && b'.done == b.done + {id}
    && Completes(b.tables, b'.tables, id, promoted)
    && Joined(jobs, b.queues, up, b'.queues)
    && Moves(b.ledgers, b'.ledgers, job.account, job.request.cpu, false)
  }

  /** Sealed: `Unlocked` in scope unfolds it. */
  ghost predicate CompletionStep(jobs: Jobs, b: Books, id: JobId, jobs': Jobs, b': Books, promoted: seq<JobId>) {
    forall k: int :: Unlocked(k) ==> CompletionFacts(jobs, b, id, jobs', b', promoted)
  }

  /** Those the tracker released are Blocked, and every one of them may become Ready. */
  lemma ReleasedAreAble(jobs: Jobs, done: set<JobId>, id: JobId, promoted: seq<JobId>)
    requires Small(jobs) && Arenas.Live(jobs, id) && StateOf(jobs, id).HoldsCpu()
    requires forall x :: x in promoted <==> x in Promoted(jobs, done, id)
    ensures Able(AfterMove(jobs, id, JobState.Completed), promoted, JobState.Ready) == Promoted(jobs, done, id)
    ensures id !in Promoted(jobs, done, id)
  {
    var able, up := Able(AfterMove(jobs, id, JobState.Completed), promoted, JobState.Ready), Promoted(jobs, done, id);
    forall x ensures x in able <==> x in up {}
  }

  lemma CompletionAgrees(jobs: Jobs, b: Books, id: JobId, t': Tables, promoted: seq<JobId>)
    requires StoreOk(jobs) && HistoryOk(jobs, b.done) && TrackerOk(jobs, b.tables)
    requires Arenas.Live(jobs, id) && StateOf(jobs, id).HoldsCpu() && Completes(b.tables, t', id, promoted)
    ensures var moved := AfterMove(jobs, id, JobState.Completed);
            && Able(moved, promoted, JobState.Ready) == Promoted(jobs, b.done, id)
            && Restate(moved, All(Able(moved, promoted, JobState.Ready),
                                  JobState.Ready)) == AfterCompletion(jobs, b.done, id)
  {
    PromotionAgrees(jobs, b.done, id, b.tables, t', promoted);
    ReleasedAreAble(jobs, b.done, id, promoted);
    MoveThenRest(jobs, id, JobState.Completed, Promoted(jobs, b.done, id), JobState.Ready);
  }

  lemma CompletionCharge(jobs: Jobs, done: set<JobId>, id: JobId, ledgers: seq<Ledger>, ledgers': seq<Ledger>)
    requires StoreOk(jobs) && ChargeOk(jobs, ledgers) && Arenas.Live(jobs, id) && StateOf(jobs, id).HoldsCpu()
    requires Moves(ledgers, ledgers', Arenas.Value(jobs, id).account, Arenas.Value(jobs, id).request.cpu, false)
    ensures ChargeOk(AfterCompletion(jobs, done, id), ledgers')
  {
    ChargeMoves(jobs, id, JobState.Completed, ledgers, ledgers');
    ChargeAfterEnd(jobs, id, JobState.Completed, Promoted(jobs, done, id), JobState.Ready, ledgers');
  }

  lemma CompletionKeeps(jobs: Jobs, b: Books, id: JobId, jobs': Jobs, b': Books, promoted: seq<JobId>)
    requires Inv(jobs, b) && Arenas.Live(jobs, id) && StateOf(jobs, id).HoldsCpu()
    requires CompletionStep(jobs, b, id, jobs', b', promoted)
    ensures jobs' == AfterCompletion(jobs, b.done, id) && Inv(jobs', b') && b'.done == b.done + {id}
  {
    assert Unlocked(0);
    CompletionAgrees(jobs, b, id, b'.tables, promoted);
    RestateStore(jobs, All(Promoted(jobs, b.done, id), JobState.Ready)[id := JobState.Completed]);
    CompletionHistory(jobs, b.done, id);
    CompletionTracker(jobs, b.done, id, b.tables, b'.tables, promoted);
    CompletionQueue(jobs, b.done, id, b.queues, b'.queues);
    CompletionCharge(jobs, b.done, id, b.ledgers, b'.ledgers);
  }

  // ---- failure and cancellation ----

  /** Whatever was Ready among `id` and `cascade` has left the queue. */
  ghost predicate Withdrawn(jobs: Jobs, q: Queues, id: JobId, state: JobState, cascade: seq<JobId>, q': Queues)
    requires Arenas.Live(jobs, id) && Small(jobs)
  {
    var job, moved := Arenas.Value(jobs, id), AfterMove(jobs, id, state);
    forall c: PriorityClass, x :: Queued(q', c, x) <==>
      && Queued(q, c, x)
      && !(x == id && job.state.Ready? && job.priorityClass == c)
      && !(x in cascade && In(moved, x, JobState.Ready) && Arenas.Value(moved, x).priorityClass == c)
  }

  /** `id` ended in `state` and `cascade` is what the tracker took down with it. */
  ghost predicate TerminationFacts(jobs: Jobs, b: Books, id: JobId, state: JobState, jobs': Jobs, b': Books,
                                   cascade: seq<JobId>) {
    && Arenas.Live(jobs, id) && Small(jobs) && Shape(b.tables)
    && var job, moved := Arenas.Value(jobs, id), AfterMove(jobs, id, state);
    && jobs' == Restate(moved, All(Able(moved, cascade, JobState.Cancelled), JobState.Cancelled))
    && b'.done == b.done
    && Terminates(b.tables, b'.tables, id, cascade)
    && Withdrawn(jobs, b.queues, id, state, cascade, b'.queues)
    && (if job.state.HoldsCpu() then Moves(b.ledgers, b'.ledgers, job.account, job.request.cpu, false)
        else b'.ledgers == b.ledgers)
  }

  /** Sealed: `Unlocked` in scope unfolds it. */
  ghost predicate TerminationStep(jobs: Jobs, b: Books, id: JobId, state: JobState, jobs': Jobs, b': Books,
                                  cascade: seq<JobId>) {
    forall k: int :: Unlocked(k) ==> TerminationFacts(jobs, b, id, state, jobs', b', cascade)
  }

  lemma TerminationAgrees(jobs: Jobs, b: Books, id: JobId, state: JobState, t': Tables, cascade: seq<JobId>)
    requires StoreOk(jobs) && HistoryOk(jobs, b.done) && TrackerOk(jobs, b.tables)
    requires Open(jobs, id) && Terminates(b.tables, t', id, cascade)
    ensures var moved := AfterMove(jobs, id, state);
            && (forall x :: x in cascade <==> x in Lifecycle.Doomed(jobs, id))
            && Restate(moved, All(Able(moved, cascade, JobState.Cancelled),
                                  JobState.Cancelled)) == AfterTermination(jobs, id, state)
  {
    CascadeAgrees(jobs, b.tables, t', id, cascade);
    DoomedAreBlocked(jobs, b.done, id);
    DoomedAreAble(jobs, id, state, cascade);
    MoveThenRest(jobs, id, state, Lifecycle.Doomed(jobs, id), JobState.Cancelled);
  }

  lemma DoomedAreAble(jobs: Jobs, id: JobId, state: JobState, cascade: seq<JobId>)
    requires Small(jobs)
    requires forall x :: x in cascade <==> x in Lifecycle.Doomed(jobs, id)
    requires forall x :: x in Lifecycle.Doomed(jobs, id) ==> In(jobs, x, JobState.Blocked)
    ensures Able(AfterMove(jobs, id, state), cascade, JobState.Cancelled) == Lifecycle.Doomed(jobs, id)
  {
    var able, down := Able(AfterMove(jobs, id, state), cascade, JobState.Cancelled), Lifecycle.Doomed(jobs, id);
    forall x ensures x in able <==> x in down {}
  }

  lemma TerminationKeeps(jobs: Jobs, b: Books, id: JobId, state: JobState, jobs': Jobs, b': Books, cascade: seq<JobId>)
    requires Inv(jobs, b) && Open(jobs, id) && (state.Failed? || state.Cancelled?)
    requires TerminationStep(jobs, b, id, state, jobs', b', cascade)
    ensures jobs' == AfterTermination(jobs, id, state) && Inv(jobs', b') && b'.done == b.done
    ensures forall x :: x in cascade <==> x in Lifecycle.Doomed(jobs, id)
  {
    assert Unlocked(0);
    TerminationAgrees(jobs, b, id, state, b'.tables, cascade);
    RestateStore(jobs, All(Lifecycle.Doomed(jobs, id), JobState.Cancelled)[id := state]);
    TerminationHistory(jobs, b.done, id, state);
    TerminationTracker(jobs, b.tables, b'.tables, id, state, cascade);
    TerminatedQueue(jobs, b.done, id, state, b.queues, b'.queues, cascade);
    TerminationCharge(jobs, b.done, id, state, b.ledgers, b'.ledgers);
  }

  lemma TerminatedQueue(jobs: Jobs, done: set<JobId>, id: JobId, state: JobState, q: Queues, q': Queues,
                        cascade: seq<JobId>)
    requires Small(jobs) && HistoryOk(jobs, done) && QueueOk(jobs, q) && Arenas.Live(jobs, id) && state.IsTerminal()
    requires forall x :: x in cascade <==> x in Lifecycle.Doomed(jobs, id)
    requires Withdrawn(jobs, q, id, state, cascade, q')
    ensures QueueOk(AfterTermination(jobs, id, state), q')
  {
    DoomedAreBlocked(jobs, done, id);
    forall c: PriorityClass, x ensures Queued(q', c, x) <==> Queued(q, c, x) && x != id {
      assert Queued(q, c, x) <==> In(jobs, x, JobState.Ready) && Arenas.Value(jobs, x).priorityClass == c;
      assert x in cascade ==> In(jobs, x, JobState.Blocked);
    }
    TerminationQueue(jobs, done, id, state, q, q');
  }

  lemma TerminationCharge(jobs: Jobs, done: set<JobId>, id: JobId, state: JobState, ledgers: seq<Ledger>,
                          ledgers': seq<Ledger>)
    requires StoreOk(jobs) && HistoryOk(jobs, done) && ChargeOk(jobs, ledgers) && Arenas.Live(jobs, id)
      && state.IsTerminal()
    requires var job := Arenas.Value(jobs, id);
             if job.state.HoldsCpu() then Moves(ledgers, ledgers', job.account, job.request.cpu, false)
                 else ledgers' == ledgers
    ensures ChargeOk(AfterTermination(jobs, id, state), ledgers')
  {
    DoomedAreBlocked(jobs, done, id);
    if StateOf(jobs, id).HoldsCpu() {
      ChargeMoves(jobs, id, state, ledgers, ledgers');
    } else {
      QuietRestate(jobs, map[id := state], ledgers);
    }
    ChargeAfterEnd(jobs, id, state, Lifecycle.Doomed(jobs, id), JobState.Cancelled, ledgers');
  }

  // ---- submission ----

  /** What `submit` leaves behind for the freshly inserted job `id`, classified as `r`. */
  ghost predicate SubmissionFacts(before: Jobs, b: Books, id: JobId, r: Readiness, b': Books) {
    && Arenas.Live(before, id) && |b.tables.owner| == |b.tables.unsatisfied| == |b.tables.dependents|
    && var job := Arenas.Value(before, id);
    && b'.done == b.done
    && b'.tables == (if r.Doomed? then b.tables else Registered(b.tables, before, id, job.deps))
    && Joined(before, b.queues, if r.CanRun? then {id} else {}, b'.queues)
    && job.account < |b'.ledgers| && Opened(b.ledgers, b'.ledgers)
  }

  /** Sealed: `Unlocked` in scope unfolds it. */
  ghost predicate SubmissionStep(before: Jobs, b: Books, id: JobId, r: Readiness, b': Books) {
    forall k: int :: Unlocked(k) ==> SubmissionFacts(before, b, id, r, b')
  }

  /** The arena once `job` has been inserted and classified. */
  function AfterSubmission(jobs: Jobs, job: Job, r: Readiness): Jobs
    requires Arenas.HasRoom(jobs)
      && (jobs.freeHead.Some? ==> jobs.freeHead.value < |jobs.slots| && jobs.slots[jobs.freeHead.value].Vacant?)
  {
    Arenas.Insert(jobs, job.(state := StateFor(r)))
  }

  /** Inserting a Submitted job and then moving it is inserting it in its final state. */
  lemma InsertThenMove(jobs: Jobs, job: Job, state: JobState)
    requires CanAdmit(jobs)
    ensures Small(Arenas.Insert(jobs, job)) && Arenas.Live(Arenas.Insert(jobs, job), Arenas.NextId(jobs))
    ensures AfterMove(Arenas.Insert(jobs, job), Arenas.NextId(jobs), state) == Arenas.Insert(jobs, job.(state := state))
  {
    InsertAdmits(jobs, job);
    var a, b := AfterMove(Arenas.Insert(jobs, job), Arenas.NextId(jobs),
                          state), Arenas.Insert(jobs, job.(state := state));
    forall i | 0 <= i < |a.slots| ensures a.slots[i] == b.slots[i] {}
    assert a.slots == b.slots;
  }

  lemma SubmissionKeepsTracker(jobs: Jobs, b: Books, job: Job, r: Readiness, b': Books)
    requires Inv(jobs, b) && CanAdmit(jobs) && job.state.Submitted?
    requires ClassifiesAs(jobs, Arenas.NextId(jobs), job.deps, Verdict(r))
    requires SubmissionStep(Arenas.Insert(jobs, job), b, Arenas.NextId(jobs), r, b')
    ensures var after := AfterSubmission(jobs, job, r);
            StoreOk(after) && HistoryOk(after, b'.done) && TrackerOk(after, b'.tables)
  {
    assert Unlocked(0);
    var id, before, placed := Arenas.NextId(jobs), Arenas.Insert(jobs, job), job.(state := StateFor(r));
    var after := Arenas.Insert(jobs, placed);
    InsertAdmits(jobs, job);
    InsertAdmits(jobs, placed);
    SubmissionHistory(jobs, after, b.done, id, placed, r);
    SubmissionTracker(jobs, before, after, b.done, b.tables, id, job, placed, r);
  }

  lemma SubmissionKeepsQueue(jobs: Jobs, b: Books, job: Job, r: Readiness, b': Books)
    requires Inv(jobs, b) && CanAdmit(jobs) && job.state.Submitted?
    requires ClassifiesAs(jobs, Arenas.NextId(jobs), job.deps, Verdict(r))
    requires SubmissionStep(Arenas.Insert(jobs, job), b, Arenas.NextId(jobs), r, b')
    ensures QueueOk(AfterSubmission(jobs, job, r), b'.queues)
  {
    assert Unlocked(0);
    var id, before, placed := Arenas.NextId(jobs), Arenas.Insert(jobs, job), job.(state := StateFor(r));
    InsertAdmits(jobs, job);
    InsertAdmits(jobs, placed);
    SubmissionQueue(jobs, before, Arenas.Insert(jobs, placed), b.queues, b'.queues, id, job, placed);
  }

  lemma SubmissionKeepsCharge(jobs: Jobs, b: Books, job: Job, r: Readiness, b': Books)
    requires Inv(jobs, b) && CanAdmit(jobs) && job.state.Submitted?
    requires SubmissionStep(Arenas.Insert(jobs, job), b, Arenas.NextId(jobs), r, b')
    ensures ChargeOk(AfterSubmission(jobs, job, r), b'.ledgers) && b'.done == b.done
  {
    assert Unlocked(0);
    InsertAdmits(jobs, job);
    InsertAdmits(jobs, job.(state := StateFor(r)));
    SubmissionCharge(jobs, b.ledgers, b'.ledgers, job.(state := StateFor(r)));
  }

  lemma SubmissionKeeps(jobs: Jobs, b: Books, job: Job, r: Readiness, b': Books)
    requires Inv(jobs, b) && CanAdmit(jobs) && job.state.Submitted?
    requires ClassifiesAs(jobs, Arenas.NextId(jobs), job.deps, Verdict(r))
    requires SubmissionStep(Arenas.Insert(jobs, job), b, Arenas.NextId(jobs), r, b')
    ensures Inv(AfterSubmission(jobs, job, r), b') && b'.done == b.done
  {
    SubmissionKeepsTracker(jobs, b, job, r, b');
    SubmissionKeepsQueue(jobs, b, job, r, b');
    SubmissionKeepsCharge(jobs, b, job, r, b');
  }
}
