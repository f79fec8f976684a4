/** The engine's jobs, books and log moving together: the invariant of every run, and replay beside it. */
module Lives {
  import opened Domain
  import Arenas
  import opened Eligibility
  import opened ReadySets
  import opened FairShares
  import opened Lifecycle
  import opened Admission
  import opened Transitions
  import opened Replay
  import opened Cycles
  import opened Bindings

  /** `base` is where the log starts; `noted` holds the handles the engine remembers as finished, for retention. */
  datatype Life = Life(jobs: Jobs, books: Books, base: Replay.Durable, log: seq<Record>, noted: set<JobId>) {
    function Durable(): Replay.Durable { Replay.Durable(jobs, books.done) }
  }

  // ---- what each job keeps beside its place in the lifecycle ----

  /** Asks for something; was evicted at most `max` times, fewer while it is being evicted; is noted once it is over. */
  predicate ExtraOk(job: Job, noted: bool, max: nat) {
    && job.request != ZERO
    && job.preemptions <= max && (job.state.Preempted? ==> job.preemptions < max)
    && (noted <==> job.state.IsTerminal())
  }

  ghost predicate Extras(jobs: Jobs, noted: set<JobId>, max: nat) {
    && (forall x :: Arenas.Live(jobs, x) ==> ExtraOk(Arenas.Value(jobs, x), x in noted, max))
    && (forall x :: x in noted ==> Arenas.Issued(jobs, x))
  }

  /** Only open jobs move; a job is evicted only below its limit; whoever ends is noted. */
  ghost predicate FairMoves(jobs: Jobs, states: map<JobId, JobState>, noted: set<JobId>, noted': set<JobId>, max: nat) {
    && (forall x :: x in states && Arenas.Live(jobs, x) ==>
          !StateOf(jobs, x).IsTerminal() && (states[x].Preempted? ==> Arenas.Value(jobs, x).preemptions < max))
    && (forall x :: x in noted' ==> x in noted || (x in states && Arenas.Live(jobs, x) && states[x].IsTerminal()))
    && (forall x :: x in noted || (x in states && Arenas.Live(jobs, x) && states[x].IsTerminal()) ==> x in noted')
  }

  lemma RestateExtras(jobs: Jobs, states: map<JobId, JobState>, noted: set<JobId>, noted': set<JobId>, max: nat)
    requires Small(jobs) && Extras(jobs, noted, max) && FairMoves(jobs, states, noted, noted', max)
    ensures Extras(Restate(jobs, states), noted', max)
  {
    var after := Restate(jobs, states);
    forall x | Arenas.Live(after, x) ensures ExtraOk(Arenas.Value(after, x), x in noted', max) {
      assert ExtraOk(Arenas.Value(jobs, x), x in noted, max);
    }
    forall x | x in noted' ensures Arenas.Issued(after, x) {
      assert Arenas.Live(jobs, x) ==> Arenas.Issued(jobs, x);
    }
  }

  // ---- the invariant ----

  ghost predicate Whole(l: Life, max: nat) {
    Inv(l.jobs, l.books) && Mirrors(l.base, l.log, l.Durable()) && Extras(l.jobs, l.noted, max)
  }

  /** Sealed: `Unsealed` in scope unfolds it. */
  ghost predicate Good(l: Life, max: nat) { forall k: int :: Unsealed(k) ==> Whole(l, max) }

  lemma GoodIsWhole(l: Life, max: nat)
    ensures Good(l, max) <==> Whole(l, max)
  {
    assert Unsealed(0);
  }

  /** What the scheduler's calls ask of their caller. */
  lemma GoodEnables(l: Life, max: nat)
    requires Good(l, max)
    ensures Small(l.jobs) && Callable(l.jobs, l.books)
  {
    GoodIsWhole(l, max);
    forall id ensures Tracked(l.books.tables, id) ==> id !in l.books.tables.dependents[id.index] {
      NoSelfEdge(l.books.tables, Graph(l.jobs), id);
    }
  }

  lemma NoSelfEdge(t: Tables, graph: map<JobId, seq<JobId>>, id: JobId)
    requires Consistent(t, graph)
    ensures Tracked(t, id) ==> id !in t.dependents[id.index]
  {
    if Tracked(t, id) {
      assert multiset(t.dependents[id.index])[id] == multiset(graph[id])[id];
    }
  }

  // ---- one logged step ----

  lemma Step(l: Life, r: Record, l': Life, max: nat)
    requires Whole(l, max) && l'.log == l.log + [r] && l'.base == l.base && Fits(l.Durable(), r)
    requires Apply(l.Durable(), r).Some? && Bare(Apply(l.Durable(), r).value) == Bare(l'.Durable())
    requires Inv(l'.jobs, l'.books) && Extras(l'.jobs, l'.noted, max)
    ensures Good(l', max)
  {
    MirrorStep(l.base, l.log, l.Durable(), r, l'.Durable());
    GoodIsWhole(l', max);
  }

  /** A move among Ready, Running and Preempted, logged as `r`. */
  lemma MoveLives(l: Life, id: JobId, state: JobState, r: Record, books': Books, max: nat)
    requires Good(l, max) && Small(l.jobs) && IsOpenMove(l.jobs, id, state)
      && MoveStep(l.jobs, l.books, id, state, books')
    requires Apply(l.Durable(), r) == Some(Replay.Durable(AfterMove(l.jobs, id, state), l.books.done))
      && Fits(l.Durable(), r)
    requires state.Preempted? ==> Arenas.Value(l.jobs, id).preemptions < max
    ensures Good(Life(AfterMove(l.jobs, id, state), books', l.base, l.log + [r], l.noted), max)
  {
    GoodIsWhole(l, max);
    MoveKeeps(l.jobs, l.books, id, state, books');
    MoveFair(l.jobs, id, state, l.noted, max);
    RestateExtras(l.jobs, map[id := state], l.noted, l.noted, max);
    Step(l, r, Life(AfterMove(l.jobs, id, state), books', l.base, l.log + [r], l.noted), max);
  }

  lemma ApplyCompleted(s: Replay.Durable, id: JobId, at: u64)
    requires Small(s.jobs) && OnCpu(s.jobs, id)
    ensures Apply(s, Record.Completed(id, at))
              == Some(Replay.Durable(AfterCompletion(s.jobs, s.done, id), s.done + {id}))
  {}

  lemma ApplyRequeued(s: Replay.Durable, id: JobId, at: u64)
    requires Small(s.jobs) && OnCpu(s.jobs, id)
    ensures Apply(s, Requeued(id, at)) == Some(Replay.Durable(AfterMove(s.jobs, id, JobState.Ready), s.done))
  {}

  lemma ApplyDispatched(s: Replay.Durable, id: JobId, at: u64)
    requires Small(s.jobs) && In(s.jobs, id, JobState.Ready)
    ensures Apply(s, Record.Dispatched(id, at)) == Some(Replay.Durable(AfterMove(s.jobs, id, JobState.Running), s.done))
  {}

  lemma ApplyPreempted(s: Replay.Durable, id: JobId, at: u64)
    requires Small(s.jobs) && In(s.jobs, id, JobState.Running)
    ensures Apply(s, Record.Preempted(id, at))
              == Some(Replay.Durable(AfterMove(s.jobs, id, JobState.Preempted), s.done))
  {}

  lemma ApplySubmitted(s: Replay.Durable, job: Job, r: Readiness)
    requires CanAdmit(s.jobs) && job.state.Submitted? && job.account < MAX_ACCOUNTS
    requires ClassifiesAs(s.jobs, Arenas.NextId(s.jobs), job.deps, Verdict(r))
    ensures Apply(s, Record.Submitted(Arenas.NextId(s.jobs),
                                      job)) == Some(Replay.Durable(AfterSubmission(s.jobs, job, r), s.done))
  {
    ClassificationIsUnique(s.jobs, Arenas.NextId(s.jobs), job.deps, Verdict(r));
  }

  lemma MoveFair(jobs: Jobs, id: JobId, state: JobState, noted: set<JobId>, max: nat)
    requires IsOpenMove(jobs, id, state) && (state.Preempted? ==> Arenas.Value(jobs, id).preemptions < max)
    ensures FairMoves(jobs, map[id := state], noted, noted, max)
  {}

  lemma CompletionNoted(jobs: Jobs, done: set<JobId>, id: JobId, noted: set<JobId>, max: nat)
    requires Small(jobs) && OnCpu(jobs, id)
    ensures FairMoves(jobs, All(Promoted(jobs, done, id), JobState.Ready)[id := JobState.Completed], noted,
                      noted + {id}, max)
  {}

  lemma CompletionLives(l: Life, id: JobId, jobs': Jobs, books': Books, promoted: seq<JobId>, at: u64, max: nat)
    requires Good(l, max) && Small(l.jobs) && OnCpu(l.jobs, id)
    requires CompletionStep(l.jobs, l.books, id, jobs', books', promoted)
    ensures jobs' == AfterCompletion(l.jobs, l.books.done, id) && books'.done == l.books.done + {id}
    ensures Good(Life(jobs', books', l.base, l.log + [Record.Completed(id, at)], l.noted + {id}), max)
  {
    GoodIsWhole(l, max);
    CompletionKeeps(l.jobs, l.books, id, jobs', books', promoted);
    ApplyCompleted(l.Durable(), id, at);
    CompletionNoted(l.jobs, l.books.done, id, l.noted, max);
    RestateExtras(l.jobs, All(Promoted(l.jobs, l.books.done, id), JobState.Ready)[id := JobState.Completed], l.noted,
                  l.noted + {id}, max);
    Step(l, Record.Completed(id, at), Life(jobs', books', l.base, l.log + [Record.Completed(id, at)], l.noted + {id}),
         max);
  }

  lemma TerminationLives(l: Life, id: JobId, state: JobState, jobs': Jobs, books': Books, cascade: seq<JobId>,
                         r: Record, max: nat)
    requires Good(l, max) && Small(l.jobs) && Open(l.jobs, id) && (state.Failed? || state.Cancelled?)
    requires TerminationStep(l.jobs, l.books, id, state, jobs', books', cascade)
    requires Apply(l.Durable(), r) == Some(Replay.Durable(AfterTermination(l.jobs, id, state), l.books.done))
      && Fits(l.Durable(), r)
    ensures jobs' == AfterTermination(l.jobs, id, state) && books'.done == l.books.done
    ensures Good(Life(jobs', books', l.base, l.log + [r], l.noted + {id} + Elements(cascade)), max)
  {
    GoodIsWhole(l, max);
    TerminationKeeps(l.jobs, l.books, id, state, jobs', books', cascade);
    DoomedAreBlocked(l.jobs, l.books.done, id);
    var noted' := l.noted + {id} + Elements(cascade);
    TerminationNoted(l.jobs, id, state, l.noted, noted', cascade, max);
    RestateExtras(l.jobs, All(Lifecycle.Doomed(l.jobs, id), JobState.Cancelled)[id := state], l.noted, noted', max);
    Step(l, r, Life(jobs', books', l.base, l.log + [r], noted'), max);
  }

  lemma TerminationNoted(jobs: Jobs, id: JobId, state: JobState, noted: set<JobId>, noted': set<JobId>,
                         cascade: seq<JobId>, max: nat)
    requires Small(jobs) && Open(jobs, id) && state.IsTerminal()
    requires forall x :: x in cascade <==> x in Lifecycle.Doomed(jobs, id)
    requires forall x :: x in Lifecycle.Doomed(jobs, id) ==> In(jobs, x, JobState.Blocked)
    requires noted' == noted + {id} + Elements(cascade)
    ensures FairMoves(jobs, All(Lifecycle.Doomed(jobs, id), JobState.Cancelled)[id := state], noted, noted', max)
  {}

  lemma SubmissionExtras(jobs: Jobs, after: Jobs, id: JobId, job: Job, noted: set<JobId>, noted': set<JobId>, max: nat)
    requires Extras(jobs, noted, max) && Admits(jobs, after, id, job) && job.request != ZERO && job.preemptions == 0
      && !job.state.Preempted?
    requires noted' == if job.state.IsTerminal() then noted + {id} else noted
    ensures Extras(after, noted', max)
  {
    assert id !in noted;
    forall x | Arenas.Live(after, x) ensures ExtraOk(Arenas.Value(after, x), x in noted', max) {
      assert x != id ==> ExtraOk(Arenas.Value(jobs, x), x in noted, max);
    }
  }

  lemma AfterSubmissionExtras(jobs: Jobs, job: Job, r: Readiness, noted: set<JobId>, noted': set<JobId>, max: nat)
    requires Extras(jobs, noted, max) && CanAdmit(jobs) && job.request != ZERO && job.preemptions == 0
    requires noted' == if r.Doomed? then noted + {Arenas.NextId(jobs)} else noted
    ensures Extras(AfterSubmission(jobs, job, r), noted', max)
  {
    var placed := job.(state := StateFor(r));
    InsertAdmits(jobs, placed);
    SubmissionExtras(jobs, Arenas.Insert(jobs, placed), Arenas.NextId(jobs), placed, noted, noted', max);
  }

  /** A new job, classified as `r`. */
  lemma SubmissionLives(l: Life, job: Job, r: Readiness, books': Books, max: nat)
    requires Good(l, max) && CanAdmit(l.jobs) && job.state.Submitted? && job.account < MAX_ACCOUNTS
    requires job.request != ZERO && job.preemptions == 0
    requires ClassifiesAs(l.jobs, Arenas.NextId(l.jobs), job.deps, Verdict(r))
    requires SubmissionStep(Arenas.Insert(l.jobs, job), l.books, Arenas.NextId(l.jobs), r, books')
    ensures Good(Life(AfterSubmission(l.jobs, job, r), books', l.base,
                      l.log + [Record.Submitted(Arenas.NextId(l.jobs), job)],
                      if r.Doomed? then l.noted + {Arenas.NextId(l.jobs)} else l.noted), max)
  {
    GoodIsWhole(l, max);
    var id, after := Arenas.NextId(l.jobs), AfterSubmission(l.jobs, job, r);
    var noted' := if r.Doomed? then l.noted + {id} else l.noted;
    SubmissionKeeps(l.jobs, l.books, job, r, books');
    ApplySubmitted(l.Durable(), job, r);
    AfterSubmissionExtras(l.jobs, job, r, l.noted, noted', max);
    Step(l, Record.Submitted(id, job), Life(after, books', l.base, l.log + [Record.Submitted(id, job)], noted'), max);
  }

  /** A finished job's slot is freed and the engine forgets it; other handles stay noted. */
  lemma ForgettingLives(l: Life, id: JobId, noted': set<JobId>, max: nat)
    requires Good(l, max) && Arenas.Live(l.jobs, id) && id in l.noted && id.generation < U32_MAX
    requires noted' <= l.noted && l.noted <= noted' + {id}
    ensures Good(Life(Arenas.Remove(l.jobs, id), l.books, l.base, l.log + [Forgotten(id)], noted'), max)
  {
    GoodIsWhole(l, max);
    assert ExtraOk(Arenas.Value(l.jobs, id), true, max);
    ForgettingKeeps(l.jobs, l.books, id);
    ForgettingExtras(l.jobs, id, l.noted, noted', max);
    Step(l, Forgotten(id), Life(Arenas.Remove(l.jobs, id), l.books, l.base, l.log + [Forgotten(id)], noted'), max);
  }

  lemma ForgettingExtras(jobs: Jobs, id: JobId, noted: set<JobId>, noted': set<JobId>, max: nat)
    requires StoreOk(jobs) && Extras(jobs, noted, max) && Arenas.Live(jobs, id) && id.generation < U32_MAX
    requires noted' <= noted && noted <= noted' + {id}
    ensures Extras(Arenas.Remove(jobs, id), noted', max)
  {
    Arenas.RemoveRetires(jobs, id);
    var after := Arenas.Remove(jobs, id);
    forall x | Arenas.Live(after, x) ensures ExtraOk(Arenas.Value(after, x), x in noted', max) {
      assert ExtraOk(Arenas.Value(jobs, x), x in noted, max);
    }
  }

  /** A handle whose job is already gone can be dropped from the notes. */
  lemma StaleNote(l: Life, id: JobId, noted': set<JobId>, max: nat)
    requires Good(l, max) && !Arenas.Live(l.jobs, id) && noted' <= l.noted && l.noted <= noted' + {id}
    ensures Good(l.(noted := noted'), max)
  {
    GoodIsWhole(l, max);
    forall x | Arenas.Live(l.jobs, x) ensures ExtraOk(Arenas.Value(l.jobs, x), x in noted', max) {
      assert ExtraOk(Arenas.Value(l.jobs, x), x in l.noted, max);
    }
    GoodIsWhole(l.(noted := noted'), max);
  }

  // ---- a whole cycle ----

  function DispatchRecords(ids: seq<JobId>, at: u64): (r: seq<Record>)
    ensures |r| == |ids|
  {
    seq(|ids|, i requires 0 <= i < |ids| => Record.Dispatched(ids[i], at))
  }

  /** Logging the dispatches one by one replays to all of them together. */
  lemma {:induction false} DispatchesMirror(base: Replay.Durable, log: seq<Record>, jobs: Jobs, done: set<JobId>,
      ids: seq<JobId>, at: u64)
    requires Small(jobs) && AllReady(jobs, ids) && Mirrors(base, log, Replay.Durable(jobs, done))
    ensures Mirrors(base, log + DispatchRecords(ids, at), Replay.Durable(AfterDispatch(jobs, ids), done))
    decreases |ids|
  {
    if ids == [] {
      DispatchNone(jobs);
      NoDispatchRecords(log, at);
    } else {
      SplitReady(jobs, ids);
      var front, x := ids[..|ids| - 1], ids[|ids| - 1];
      DispatchesMirror(base, log, jobs, done, front, at);
      DispatchOneMore(jobs, front, x);
      DispatchMirrors(base, log + DispatchRecords(front, at), AfterDispatch(jobs, front), done, x, at);
      DispatchRecordsSnoc(log, front, x, at);
    }
  }

  lemma NoDispatchRecords(log: seq<Record>, at: u64)
    ensures log + DispatchRecords([], at) == log
  {}

  lemma DispatchRecordsSnoc(log: seq<Record>, front: seq<JobId>, x: JobId, at: u64)
    ensures log + DispatchRecords(front + [x], at) == log + DispatchRecords(front, at) + [Record.Dispatched(x, at)]
  {}

  lemma DispatchMirrors(base: Replay.Durable, log: seq<Record>, jobs: Jobs, done: set<JobId>, x: JobId, at: u64)
    requires Small(jobs) && In(jobs, x, JobState.Ready) && Mirrors(base, log, Replay.Durable(jobs, done))
    ensures Mirrors(base, log + [Record.Dispatched(x, at)], Replay.Durable(AfterMove(jobs, x, JobState.Running), done))
  {
    var s := Replay.Durable(jobs, done);
    ApplyDispatched(s, x, at);
    MirrorStep(base, log, s, Record.Dispatched(x, at), Replay.Durable(AfterMove(jobs, x, JobState.Running), done));
  }

  lemma DispatchFair(jobs: Jobs, ids: seq<JobId>, noted: set<JobId>, max: nat)
    requires AllReady(jobs, ids)
    ensures FairMoves(jobs, All(Elements(ids), JobState.Running), noted, noted, max)
  {}

  lemma CycleLives(table: seq<nat>, l: Life, current: seq<Ledger>, ids: seq<JobId>, now: u64, quantum: nat, jobs': Jobs,
                   books': Books, max: nat)
    requires Good(l, max) && Small(l.jobs)
    requires CycleStep(table, l.jobs, l.books, current, ids, now, quantum, jobs', books')
    ensures Good(Life(jobs', books', l.base, l.log + DispatchRecords(ids, now), l.noted), max)
  {
    GoodIsWhole(l, max);
    CycleKeeps(table, l.jobs, l.books, current, ids, now, quantum, jobs', books');
    DispatchesMirror(l.base, l.log, l.jobs, l.books.done, ids, now);
    DispatchFair(l.jobs, ids, l.noted, max);
    RestateExtras(l.jobs, All(Elements(ids), JobState.Running), l.noted, l.noted, max);
    GoodIsWhole(Life(jobs', books', l.base, l.log + DispatchRecords(ids, now), l.noted), max);
  }

  // ---- a confirmed eviction ----

  /** The arena with one more eviction on `id`'s counter, saturating. */
  function Bump(jobs: Jobs, id: JobId): Jobs
    requires Arenas.Live(jobs, id)
  {
    var job := Arenas.Value(jobs, id);
    Arenas.Put(jobs, id, job.(preemptions := Min(job.preemptions + 1, U8_MAX)))
  }

  lemma BumpIsTwin(jobs: Jobs, id: JobId)
    requires Arenas.Live(jobs, id)
    ensures Twins(jobs, Bump(jobs, id)) && Arenas.Live(Bump(jobs, id), id)
    ensures Arenas.Value(Bump(jobs, id), id)
              == Arenas.Value(jobs, id).(preemptions := Min(Arenas.Value(jobs, id).preemptions + 1, U8_MAX))
  {}

  lemma RestateTwins(a: Jobs, b: Jobs, states: map<JobId, JobState>)
    requires Small(a) && Twins(a, b)
    ensures Twins(Restate(a, states), Restate(b, states))
  {
    forall i | 0 <= i < |a.slots| ensures PlainSlot(Restate(a, states).slots[i])
        == PlainSlot(Restate(b, states).slots[i]) {
      assert PlainSlot(a.slots[i]) == PlainSlot(b.slots[i]);
    }
  }

  lemma EvictionExtras(jobs: Jobs, id: JobId, noted: set<JobId>, max: nat)
    requires Small(jobs) && Extras(jobs, noted, max) && In(jobs, id, JobState.Preempted)
    ensures Extras(AfterMove(Bump(jobs, id), id, JobState.Ready), noted, max)
  {
    BumpIsTwin(jobs, id);
    TwinJobs(jobs, Bump(jobs, id));
    var after := AfterMove(Bump(jobs, id), id, JobState.Ready);
    forall x | Arenas.Live(after, x) ensures ExtraOk(Arenas.Value(after, x), x in noted, max) {
      assert ExtraOk(Arenas.Value(jobs, x), x in noted, max);
    }
  }

  /** The evicted job is counted and back in the queue; the log says only that it was requeued. */
  lemma EvictionLives(l: Life, id: JobId, books': Books, at: u64, max: nat)
    requires Good(l, max) && Small(l.jobs) && In(l.jobs, id, JobState.Preempted)
    requires MoveStep(l.jobs, l.books, id, JobState.Ready, books')
    ensures Good(Life(AfterMove(Bump(l.jobs, id), id, JobState.Ready), books', l.base, l.log + [Requeued(id, at)],
                      l.noted), max)
  {
    GoodIsWhole(l, max);
    var moved, after := AfterMove(l.jobs, id, JobState.Ready), AfterMove(Bump(l.jobs, id), id, JobState.Ready);
    MoveKeeps(l.jobs, l.books, id, JobState.Ready, books');
    BumpIsTwin(l.jobs, id);
    RestateTwins(l.jobs, Bump(l.jobs, id), map[id := JobState.Ready]);
    TwinInv(moved, after, books');
    TwinsArePlain(moved, after);
    ApplyRequeued(l.Durable(), id, at);
    EvictionExtras(l.jobs, id, l.noted, max);
    Step(l, Requeued(id, at), Life(after, books', l.base, l.log + [Requeued(id, at)], l.noted), max);
  }

  /** A job goes back to the queue. */
  lemma RequeueLives(l: Life, id: JobId, at: u64, books': Books, max: nat)
    requires Good(l, max) && Small(l.jobs) && OnCpu(l.jobs, id) && MoveStep(l.jobs, l.books, id, JobState.Ready, books')
    ensures Good(Life(AfterMove(l.jobs, id, JobState.Ready), books', l.base, l.log + [Requeued(id, at)], l.noted), max)
  {
    ApplyRequeued(l.Durable(), id, at);
    MoveLives(l, id, JobState.Ready, Requeued(id, at), books', max);
  }

  lemma PreemptIsMove(jobs: Jobs, b: Books, id: JobId)
    requires In(jobs, id, JobState.Running)
    ensures MoveStep(jobs, b, id, JobState.Preempted, b)
  {}

  /** A running job below its limit is told to stop. */
  lemma PreemptLives(l: Life, id: JobId, at: u64, max: nat)
    requires Good(l, max) && Small(l.jobs) && In(l.jobs, id, JobState.Running)
      && Arenas.Value(l.jobs, id).preemptions < max
    ensures Good(Life(AfterMove(l.jobs, id, JobState.Preempted), l.books, l.base, l.log + [Record.Preempted(id, at)],
                      l.noted), max)
  {
    ApplyPreempted(l.Durable(), id, at);
    PreemptIsMove(l.jobs, l.books, id);
    MoveLives(l, id, JobState.Preempted, Record.Preempted(id, at), l.books, max);
  }
}
