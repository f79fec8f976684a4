/** Starting again: an engine rebuilt from a snapshot and the records logged after it. */
module Recoveries {
  import opened Domain
  import Arenas
  import opened Eligibility
  import opened ReadySets
  import opened FairShares
  import opened Priority
  import opened Lifecycle
  import opened Admission
  import opened Transitions
  import opened Cycles
  import opened Replay
  import opened Bindings
  import opened Lives
  import opened Schedulers
  import opened Restores
  import opened Engines

  /** Everything a snapshot holds: the arena with its free list, which jobs were Running, every ledger. */
  datatype Snapshot = Snapshot(takenAt: u64, jobs: Jobs, running: seq<JobId>, ledgers: seq<Ledger>)

  /** `s` is what an engine in this state writes. */
  ghost predicate Describes(s: Snapshot, jobs: Jobs, b: Books) {
    Inv(jobs, b) && |jobs.slots| <= U32_MAX && s.jobs == jobs && s.running == IdsIn(jobs.slots, JobState.Running)
        && s.ledgers == b.ledgers
  }

  // ---- resubmission ----

  /** The restored scheduler once the slots below `i` have been resubmitted. */
  ghost predicate RestoredTo(saved: Jobs, i: nat, jobs: Jobs, b: Books) {
    && i <= |saved.slots| <= U32_MAX
    && jobs == Stage(saved, i) && b.tables == Rebuilt(saved, i) && QueueOk(jobs, b.queues)
  }

  /** Sealed: `Unlocked` in scope unfolds it. */
  ghost predicate Restoring(saved: Jobs, i: nat, jobs: Jobs, b: Books) {
    forall k: int :: Unlocked(k) ==> RestoredTo(saved, i, jobs, b)
  }

  lemma RestoringStarts(saved: Jobs, b: Books)
    requires |saved.slots| <= U32_MAX && b.queues == NOTHING && b.tables == Tables([], [], [])
    ensures Restoring(saved, 0, Stage(saved, 0), b)
  {
    var jobs := Stage(saved, 0);
    forall c: PriorityClass, x ensures Queued(NOTHING, c, x) <==>
        In(jobs, x, JobState.Ready) && Arenas.Value(jobs, x).priorityClass == c {}
  }

  lemma RestoringAdmits(saved: Jobs, i: nat, jobs: Jobs, b: Books)
    requires Restoring(saved, i, jobs, b)
    ensures Small(jobs) && Admissible(jobs, b) && |jobs.slots| == |saved.slots| && i <= |saved.slots|
      && jobs == Stage(saved, i)
  {
    assert Unlocked(0);
  }

  function OpenAt(saved: Jobs, i: nat): bool
    requires i < |saved.slots|
  {
    saved.slots[i].Occupied? && !saved.slots[i].value.state.IsTerminal()
  }

  lemma RestoringSkips(saved: Jobs, i: nat, jobs: Jobs, b: Books)
    requires Restoring(saved, i, jobs, b) && i < |saved.slots| && !OpenAt(saved, i)
    ensures Restoring(saved, i + 1, jobs, b)
  {
    assert Unlocked(0);
    StageNext(saved, i);
  }

  /** The verdict on the job of slot `i`: accepted exactly when none of its dependencies was forgotten. */
  lemma RestoreVerdict(saved: Jobs, done: set<JobId>, i: nat, jobs: Jobs, b: Books, c: Classified)
    requires Restoring(saved, i, jobs, b) && HistoryOk(saved, done) && i < |saved.slots| <= U32_MAX && OpenAt(saved, i)
    requires ClassifiesAs(jobs, JobId(i, saved.slots[i].generation), saved.slots[i].value.deps, c)
    ensures Open(saved, JobId(i, saved.slots[i].generation))
    ensures c.Verdict? <==> DepsLive(saved, JobId(i, saved.slots[i].generation))
    ensures c.Verdict? ==> StateFor(c.readiness) == Back(saved.slots[i].value.state) && !c.readiness.Doomed?
  {
    assert Unlocked(0);
    var id := JobId(i, saved.slots[i].generation);
    StageClassifies(saved, done, i, id);
    ClassificationIsUnique(jobs, id, saved.slots[i].value.deps, c);
    if DepsLive(saved, id) {
      ClassificationIsUnique(jobs, id, saved.slots[i].value.deps,
          Verdict(if StateOf(saved, id).Blocked? then MustWait else CanRun));
      assert JobOk(saved, done, id);
    }
  }

  lemma RestoringNext(saved: Jobs, i: nat, jobs: Jobs, b: Books, r: Readiness, b': Books)
    requires Restoring(saved, i, jobs, b) && i < |saved.slots| <= U32_MAX && OpenAt(saved, i) && !r.Doomed?
    requires StateFor(r) == Back(saved.slots[i].value.state)
      && SubmissionStep(jobs, b, JobId(i, saved.slots[i].generation), r, b')
    ensures Small(jobs)
      && Restoring(saved, i + 1, AfterMove(jobs, JobId(i, saved.slots[i].generation), StateFor(r)), b')
  {
    assert Unlocked(0);
    StageNext(saved, i);
    var id := JobId(i, saved.slots[i].generation);
    var after := AfterMove(jobs, id, StateFor(r));
    forall c: PriorityClass, x
      ensures Queued(b'.queues, c, x) <==> In(after, x, JobState.Ready) && Arenas.Value(after, x).priorityClass == c
    {
      assert Queued(b.queues, c, x) <==> In(jobs, x, JobState.Ready) && Arenas.Value(jobs, x).priorityClass == c;
    }
  }

  /** Whether resubmitting slot `i` succeeds: a property of the saved arena alone. */
  ghost predicate Resubmits(saved: Jobs, i: nat)
    requires i < |saved.slots| <= U32_MAX
  {
    OpenAt(saved, i) ==>
      var id := JobId(i, saved.slots[i].generation);
      Arenas.Live(saved, id) && DepsLive(saved, id)
  }

  ghost predicate AccountsOk(
                             saved: Jobs) { forall x :: Arenas.Live(saved, x) ==>
                                 Arenas.Value(saved, x).account < MAX_ACCOUNTS }

  /** The open job of slot `i`, still waiting as Submitted. */
  lemma StillSubmitted(saved: Jobs, i: nat, jobs: Jobs, b: Books)
    requires Restoring(saved, i, jobs, b) && i < |saved.slots| <= U32_MAX && OpenAt(saved, i) && AccountsOk(saved)
    ensures var id := JobId(i, saved.slots[i].generation);
            && In(jobs, id, JobState.Submitted) && Arenas.Value(jobs, id).deps == saved.slots[i].value.deps
            && Arenas.Value(jobs, id).account < MAX_ACCOUNTS
  {
    assert Unlocked(0);
    assert Arenas.Live(saved, JobId(i, saved.slots[i].generation));
  }

  /** Resubmits the open job of one slot. */
  method Resubmit(e: Engine, saved: Jobs, i: nat, at: u64, ghost done: set<JobId>) returns (ok: bool)
    requires e.scheduler.Parts() && HistoryOk(saved, done) && AccountsOk(saved) && i < |saved.slots| <= U32_MAX
      && OpenAt(saved, i)
    requires Restoring(saved, i, e.jobs, e.scheduler.Books())
    modifies e`jobs, e`terminal, e.scheduler.ready.low, e.scheduler.ready.normal, e.scheduler.ready.high,
             e.scheduler.ready.urgent, e.scheduler.deps, e.scheduler.fairshare
    ensures e.scheduler.Parts() && (ok <==> Resubmits(saved, i)) && e.terminal == old(e.terminal)
    ensures ok ==> Restoring(saved, i + 1, e.jobs, e.scheduler.Books())
  {
    ghost var jobs, books := e.jobs, e.scheduler.Books();
    RestoringAdmits(saved, i, jobs, books);
    StillSubmitted(saved, i, jobs, books);
    var id := JobId(i, saved.slots[i].generation);
    var c, error, after := e.scheduler.Submit(id, e.jobs, at, e.config);
    RestoreVerdict(saved, done, i, jobs, books, c);
    ok := error == None;
    if ok {
      RestoringNext(saved, i, jobs, books, c.readiness, e.scheduler.Books());
      e.jobs := after;
    }
  }

  /** Resubmits one slot's job, or notes it when it is over. */
  method ResubmitSlot(e: Engine, saved: Jobs, i: nat, at: u64, ghost done: set<JobId>) returns (ok: bool)
    requires e.scheduler.Parts() && HistoryOk(saved, done) && AccountsOk(saved) && i < |saved.slots| <= U32_MAX
    requires Restoring(saved, i, e.jobs, e.scheduler.Books())
    modifies e`jobs, e`terminal, e.scheduler.ready.low, e.scheduler.ready.normal, e.scheduler.ready.high,
             e.scheduler.ready.urgent, e.scheduler.deps, e.scheduler.fairshare
    ensures e.scheduler.Parts() && (ok <==> Resubmits(saved, i))
    ensures ok ==> Restoring(saved, i + 1, e.jobs, e.scheduler.Books())
    ensures ok ==> Noted(e.terminal) == Noted(old(e.terminal)) + FinishedAt(saved, i)
  {
    if OpenAt(saved, i) {
      ok := Resubmit(e, saved, i, at, done);
    } else {
      ok := true;
      RestoringSkips(saved, i, e.jobs, e.scheduler.Books());
      if saved.slots[i].Occupied? {
        NotedOneMore(e.terminal, at, JobId(i, saved.slots[i].generation));
        e.terminal := e.terminal + [(at, JobId(i, saved.slots[i].generation))];
      }
    }
  }

  /** The finished job of slot `i`, if any. */
  function FinishedAt(saved: Jobs, i: nat): set<JobId>
    requires i < |saved.slots| <= U32_MAX
  {
    if saved.slots[i].Occupied? && saved.slots[i].value.state.IsTerminal() then {JobId(i, saved.slots[i].generation)}
        else {}
  }

  function FinishedBelow(saved: Jobs, i: nat): set<JobId>
    requires i <= |saved.slots| <= U32_MAX
  {
    if i == 0 then {} else FinishedBelow(saved, i - 1) + FinishedAt(saved, i - 1)
  }

  lemma {:induction false} FinishedMembers(saved: Jobs, i: nat)
    requires i <= |saved.slots| <= U32_MAX
    ensures forall x :: x in FinishedBelow(saved, i) <==>
              Arenas.Live(saved, x) && StateOf(saved, x).IsTerminal() && x.index < i
  {
    if i > 0 { FinishedMembers(saved, i - 1); }
  }

  /** Resubmits every open job in slot order, noting the finished ones; stops at the first refusal. */
  method ResubmitAll(e: Engine, saved: Jobs, at: u64, ghost done: set<JobId>) returns (ok: bool)
    requires e.scheduler.Parts() && HistoryOk(saved, done) && AccountsOk(saved) && |saved.slots| <= U32_MAX
    requires Restoring(saved, 0, e.jobs, e.scheduler.Books()) && e.terminal == []
    modifies e`jobs, e`terminal, e.scheduler.ready.low, e.scheduler.ready.normal, e.scheduler.ready.high,
             e.scheduler.ready.urgent, e.scheduler.deps, e.scheduler.fairshare
    ensures e.scheduler.Parts() && (ok <==> AllDepsLive(saved))
    ensures ok ==> Restoring(saved, |saved.slots|, e.jobs,
                             e.scheduler.Books()) && Noted(e.terminal) == FinishedBelow(saved, |saved.slots|)
  {
    for i := 0 to |saved.slots|
      invariant e.scheduler.Parts() && Restoring(saved, i, e.jobs, e.scheduler.Books())
      invariant ResubmitsBelow(saved, i) && Noted(e.terminal) == FinishedBelow(saved, i)
    {
      ok := ResubmitSlot(e, saved, i, at, done);
      if !ok {
        RefusedSomewhere(saved, i);
        return;
      }
      AcceptedOneMore(saved, i);
    }
    AcceptedEverywhere(saved);
    return true;
  }

  ghost predicate ResubmitsBelow(saved: Jobs, i: nat)
    requires i <= |saved.slots| <= U32_MAX
  {
    forall k: nat :: k < i ==> Resubmits(saved, k)
  }

  lemma AcceptedOneMore(saved: Jobs, i: nat)
    requires i < |saved.slots| <= U32_MAX && ResubmitsBelow(saved, i) && Resubmits(saved, i)
    ensures ResubmitsBelow(saved, i + 1)
  {}

  lemma RefusedSomewhere(saved: Jobs, i: nat)
    requires i < |saved.slots| <= U32_MAX && !Resubmits(saved, i)
    ensures !AllDepsLive(saved)
  {
    var id := JobId(i, saved.slots[i].generation);
    assert Open(saved, id);
  }

  lemma AcceptedEverywhere(saved: Jobs)
    requires |saved.slots| <= U32_MAX && ResubmitsBelow(saved, |saved.slots|)
    ensures AllDepsLive(saved)
  {
    forall x | Open(saved, x) ensures DepsLive(saved, x) { assert Resubmits(saved, x.index); }
  }

  // ---- running jobs ----

  /** The arena with the first `k` running jobs restored on top of the resubmitted one. */
  ghost predicate RunningTo(saved: Jobs, ids: seq<JobId>, k: nat, jobs: Jobs, b: Books) {
    && k <= |ids| && |saved.slots| <= U32_MAX
    && jobs == AfterDispatch(Stage(saved, |saved.slots|), ids[..k])
    && b.tables == Rebuilt(saved, |saved.slots|) && QueueOk(jobs, b.queues)
  }

  ghost predicate RunningAgain(saved: Jobs, ids: seq<JobId>, k: nat, jobs: Jobs, b: Books) {
    forall key: int :: Unlocked(key) ==> RunningTo(saved, ids, k, jobs, b)
  }

  lemma RunningStarts(saved: Jobs, ids: seq<JobId>, jobs: Jobs, b: Books)
    requires Restoring(saved, |saved.slots|, jobs, b)
    ensures RunningAgain(saved, ids, 0, jobs, b)
  {
    assert Unlocked(0);
    DispatchNone(jobs);
    assert ids[..0] == [];
  }

  lemma RunningReady(saved: Jobs, k: nat, jobs: Jobs, b: Books)
    requires |saved.slots| <= U32_MAX && k < |IdsIn(saved.slots, JobState.Running)|
    requires RunningAgain(saved, IdsIn(saved.slots, JobState.Running), k, jobs, b)
    ensures Small(jobs) && In(jobs, IdsIn(saved.slots, JobState.Running)[k], JobState.Ready)
  {
    assert Unlocked(0);
    var ids := IdsIn(saved.slots, JobState.Running);
    IdsInMembers(saved, JobState.Running);
    NotYetVisited(ids, k);
    assert ids[k] in ids;
  }

  lemma RunningNext(saved: Jobs, k: nat, jobs: Jobs, b: Books, b': Books)
    requires |saved.slots| <= U32_MAX && k < |IdsIn(saved.slots, JobState.Running)|
    requires RunningAgain(saved, IdsIn(saved.slots, JobState.Running), k, jobs, b)
    requires MoveStep(jobs, b, IdsIn(saved.slots, JobState.Running)[k], JobState.Running, b')
    ensures Small(jobs)
    ensures RunningAgain(saved, IdsIn(saved.slots, JobState.Running), k + 1,
              AfterMove(jobs, IdsIn(saved.slots, JobState.Running)[k], JobState.Running), b')
  {
    RunningReady(saved, k, jobs, b);
    RunningQueue(jobs, b, IdsIn(saved.slots, JobState.Running)[k], b') by { assert Unlocked(0); }
    assert Unlocked(0);
    var ids, staged := IdsIn(saved.slots, JobState.Running), Stage(saved, |saved.slots|);
    var id := ids[k];
    IdsInMembers(saved, JobState.Running);
    NotYetVisited(ids, k);
    DispatchOneMore(staged, ids[..k], id);
    assert ids[..k + 1] == ids[..k] + [id];
  }

  lemma RunningQueue(jobs: Jobs, b: Books, id: JobId, b': Books)
    requires Small(jobs) && In(jobs, id, JobState.Ready) && QueueOk(jobs, b.queues)
      && MoveStep(jobs, b, id, JobState.Running, b')
    ensures QueueOk(AfterMove(jobs, id, JobState.Running), b'.queues) && b'.tables == b.tables
  {
    assert Unlocked(0);
    MovedQueue(jobs, b.queues, b'.queues, id, JobState.Running);
    QueueMove(jobs, b.queues, b'.queues, id, JobState.Running);
  }

  /** Running jobs are restored on top: the arena is the saved one with evictions in flight undone. */
  lemma StageThenRun(saved: Jobs, done: set<JobId>)
    requires |saved.slots| <= U32_MAX && HistoryOk(saved, done)
    ensures AfterDispatch(Stage(saved, |saved.slots|), IdsIn(saved.slots, JobState.Running)) == Resumed(saved)
  {
    var a, b := AfterDispatch(Stage(saved, |saved.slots|), IdsIn(saved.slots, JobState.Running)), Resumed(saved);
    IdsInMembers(saved, JobState.Running);
    forall i | 0 <= i < |saved.slots| ensures a.slots[i] == b.slots[i] {
      if saved.slots[i].Occupied? {
        var x := JobId(i, saved.slots[i].generation);
        assert Arenas.Live(saved, x) && JobOk(saved, done, x);
      }
    }
    assert a.slots == b.slots;
  }

  method RestoreRunningJobs(e: Engine, saved: Jobs, at: u64)
    requires e.scheduler.Parts() && |saved.slots| <= U32_MAX
      && Restoring(saved, |saved.slots|, e.jobs, e.scheduler.Books())
    modifies e`jobs, e.scheduler.ready.low, e.scheduler.ready.normal, e.scheduler.ready.high, e.scheduler.ready.urgent,
             e.scheduler.fairshare
    ensures e.scheduler.Parts()
    ensures RunningAgain(saved, IdsIn(saved.slots, JobState.Running), |IdsIn(saved.slots, JobState.Running)|, e.jobs,
                         e.scheduler.Books())
  {
    var ids := IdsIn(saved.slots, JobState.Running);
    RunningStarts(saved, ids, e.jobs, e.scheduler.Books());
    for k := 0 to |ids|
      invariant e.scheduler.Parts() && RunningAgain(saved, ids, k, e.jobs, e.scheduler.Books())
    {
      ghost var jobs, books := e.jobs, e.scheduler.Books();
      RunningReady(saved, k, jobs, books);
      var error, after := e.scheduler.RestoreRunning(ids[k], e.jobs, at, e.config);
      RunningNext(saved, k, jobs, books, e.scheduler.Books());
      e.jobs := after;
    }
  }

  // ---- the whole snapshot ----

  lemma RunningResumed(saved: Jobs, done: set<JobId>, jobs: Jobs, b: Books)
    requires |saved.slots| <= U32_MAX && HistoryOk(saved, done)
    requires RunningAgain(saved, IdsIn(saved.slots, JobState.Running), |IdsIn(saved.slots, JobState.Running)|, jobs, b)
    ensures jobs == Resumed(saved) && b.tables == Rebuilt(saved, |saved.slots|) && QueueOk(jobs, b.queues)
  {
    assert Unlocked(0);
    var ids := IdsIn(saved.slots, JobState.Running);
    assert ids[..|ids|] == ids;
    StageThenRun(saved, done);
  }

  lemma DescribesAccounts(s: Snapshot, b: Books)
    requires Describes(s, s.jobs, b) && |b.ledgers| <= MAX_ACCOUNTS
    ensures HistoryOk(s.jobs, b.done) && AccountsOk(s.jobs) && Arenas.WellFormed(s.jobs)
  {}

  /** What loading the jobs of a snapshot leaves, before its ledgers replace the ones resubmission opened; sealed. */
  ghost predicate Loaded(saved: Jobs, jobs: Jobs, b: Books, noted: set<JobId>) {
    forall k: int :: Unlocked(k) ==>
      && Small(saved) && jobs == Resumed(saved) && b.tables == Rebuilt(saved, |saved.slots|) && QueueOk(jobs, b.queues)
      && noted == FinishedBelow(saved, |saved.slots|)
  }

  lemma RunningLoaded(saved: Jobs, done: set<JobId>, jobs: Jobs, b: Books, noted: set<JobId>)
    requires |saved.slots| <= U32_MAX && HistoryOk(saved, done) && noted == FinishedBelow(saved, |saved.slots|)
    requires RunningAgain(saved, IdsIn(saved.slots, JobState.Running), |IdsIn(saved.slots, JobState.Running)|, jobs, b)
    ensures Loaded(saved, jobs, b, noted)
  {
    RunningResumed(saved, done, jobs, b);
  }

  method LoadJobs(e: Engine, s: Snapshot, ghost b: Books) returns (ok: bool)
    requires e.scheduler.Parts() && e.scheduler.Books() == Books({}, NOTHING, Tables([], [], []), [])
      && e.terminal == []
    requires HistoryOk(s.jobs, b.done) && AccountsOk(s.jobs) && |s.jobs.slots| <= U32_MAX
    modifies e`jobs, e`terminal, e.scheduler.ready.low, e.scheduler.ready.normal, e.scheduler.ready.high,
             e.scheduler.ready.urgent, e.scheduler.deps, e.scheduler.fairshare
    ensures e.scheduler.Parts() && (ok <==> AllDepsLive(s.jobs))
    ensures ok ==> Loaded(s.jobs, e.jobs, e.scheduler.Books(), Noted(e.terminal))
  {
    RestoringStarts(s.jobs, e.scheduler.Books());
    e.jobs := Stage(s.jobs, 0);
    ok := ResubmitAll(e, s.jobs, s.takenAt, b.done);
    if !ok { return; }
    RestoreRunningJobs(e, s.jobs, s.takenAt);
    RunningLoaded(s.jobs, b.done, e.jobs, e.scheduler.Books(), Noted(e.terminal));
  }

  lemma LoadedRightIff(s: Snapshot, b: Books, jobs: Jobs, b': Books, noted: set<JobId>)
    requires Describes(s, s.jobs, b) && AllDepsLive(s.jobs) && Loaded(s.jobs, jobs, b', noted)
    ensures jobs == Resumed(s.jobs) && noted == FinishedBelow(s.jobs, |s.jobs.slots|)
    ensures Inv(jobs, b'.(done := CompletedIds(s.jobs), ledgers := s.ledgers)) <==>
              WaitsDownward(s.jobs) && EvictionsHoldNothing(s.jobs)
  {
    assert Unlocked(0);
    RestoreRightIff(s.jobs, b, b'.queues);
  }

  /** Loads a snapshot an engine wrote. It is accepted exactly when no open job's dependency was forgotten, and the
      scheduler it leaves is right exactly when no job waited for one in a higher slot and no eviction in flight held
      cpu. */
  method RestoreSnapshot(e: Engine, s: Snapshot, ghost b: Books) returns (ok: bool)
    requires e.scheduler.Parts() && e.scheduler.Books() == Books({}, NOTHING, Tables([], [], []), [])
      && e.terminal == []
    requires Describes(s, s.jobs, b) && |b.ledgers| <= MAX_ACCOUNTS
    modifies e`jobs, e`terminal, e.scheduler, e.scheduler.ready.low, e.scheduler.ready.normal, e.scheduler.ready.high,
             e.scheduler.ready.urgent, e.scheduler.deps, e.scheduler.fairshare
    ensures e.scheduler.Parts() && (ok <==> AllDepsLive(s.jobs))
    ensures ok ==>
              && e.jobs == Resumed(s.jobs) && e.scheduler.done == CompletedIds(s.jobs)
              && Noted(e.terminal) == FinishedBelow(s.jobs, |s.jobs.slots|)
    ensures ok ==> (Inv(e.jobs, e.scheduler.Books()) <==> WaitsDownward(s.jobs) && EvictionsHoldNothing(s.jobs))
  {
    DescribesAccounts(s, b);
    var broken := Arenas.CheckFreeList(s.jobs.slots, s.jobs.freeHead);
    ok := broken == None;
    if ok { ok := LoadJobs(e, s, b); }
    if !ok { return; }
    ghost var books := e.scheduler.Books();
    LoadedRightIff(s, b, e.jobs, books, Noted(e.terminal));
    TakeLedgers(e.scheduler, s);
  }

  /** The saved ledgers replace the ones resubmission opened. */
  method TakeLedgers(scheduler: Scheduler, s: Snapshot)
    requires scheduler.Parts() && |s.ledgers| <= MAX_ACCOUNTS && |s.jobs.slots| <= U32_MAX
    modifies scheduler, scheduler.fairshare
    ensures scheduler.Parts()
    ensures scheduler.Books() == old(scheduler.Books()).(done := CompletedIds(s.jobs), ledgers := s.ledgers)
  {
    var ok := scheduler.RestoreLedgers(s.ledgers);
    scheduler.done := CompletedIds(s.jobs);
  }

  // ---- records after the snapshot ----

  /** The two histories agree on every live job and on every dependency of an open one. */
  ghost predicate SameDone(jobs: Jobs, done: set<JobId>, done': set<JobId>) {
    && (forall x :: Arenas.Live(jobs, x) ==> (x in done <==> x in done'))
    && (forall x, d :: Open(jobs, x) && d in Arenas.Value(jobs, x).deps ==> (d in done <==> d in done'))
    && (forall x :: x in done || x in done' ==> Arenas.Issued(jobs, x))
  }

  lemma SamePromoted(jobs: Jobs, done: set<JobId>, done': set<JobId>, id: JobId)
    requires Small(jobs) && SameDone(jobs, done, done')
    ensures Promoted(jobs, done, id) == Promoted(jobs, done', id)
  {
    var a, b := Promoted(jobs, done, id), Promoted(jobs, done', id);
    forall x ensures x in a <==> x in b {
      assert In(jobs, x, JobState.Blocked) ==> Open(jobs, x);
    }
  }

  lemma RestateSameDone(jobs: Jobs, states: map<JobId, JobState>, done: set<JobId>, done': set<JobId>, more: set<JobId>)
    requires Small(jobs) && SameDone(jobs, done, done')
    requires forall x :: x in states && Arenas.Live(jobs, x) ==> !StateOf(jobs, x).IsTerminal()
    requires forall x :: x in more ==> Arenas.Live(jobs, x)
    ensures SameDone(Restate(jobs, states), done + more, done' + more)
  {
    var after := Restate(jobs, states);
    forall x | Open(after, x) ensures Open(jobs, x) && Arenas.Value(after, x).deps == Arenas.Value(jobs, x).deps {}
  }

  /** Replaying one record does not tell the two histories apart. */
  lemma ApplySameDone(jobs: Jobs, done: set<JobId>, done': set<JobId>, r: Record)
    requires Small(jobs) && SameDone(jobs, done, done') && Fits(Durable(jobs, done), r)
    ensures var a, b := Apply(Durable(jobs, done), r), Apply(Durable(jobs, done'), r);
            && (a == None <==> b == None)
            && (a.Some? ==> a.value.jobs == b.value.jobs && SameDone(a.value.jobs, a.value.done, b.value.done))
  {
    assert done + {} == done && done' + {} == done';
    match r
    case Submitted(id, job) => SubmitSameDone(jobs, done, done', id, job);
    case Completed(id, _) =>
      SamePromoted(jobs, done, done', id);
      if MayBecome(jobs, id, JobState.Completed) {
        RestateSameDone(jobs, All(Promoted(jobs, done, id), JobState.Ready)[id := JobState.Completed], done, done',
                        {id});
      }
    case Failed(id, _) =>
      if MayBecome(jobs, id, JobState.Failed) {
        RestateSameDone(jobs, All(Lifecycle.Doomed(jobs, id), JobState.Cancelled)[id := JobState.Failed], done, done',
                        {}) by { DoomedAreOpen(jobs, id); }
      }
    case Cancelled(id, _) =>
      if MayBecome(jobs, id, JobState.Cancelled) {
        RestateSameDone(jobs, All(Lifecycle.Doomed(jobs, id), JobState.Cancelled)[id := JobState.Cancelled], done,
                        done', {}) by { DoomedAreOpen(jobs, id); }
      }
    case Dispatched(id, _) => if In(jobs, id,
        JobState.Ready) { RestateSameDone(jobs, map[id := JobState.Running], done, done', {}); }
    case Requeued(id, _) =>
      if In(jobs, id, JobState.Running) || MayBecome(jobs, id,
          JobState.Ready) { RestateSameDone(jobs, map[id := JobState.Ready], done, done', {}); }
    case Preempted(id, _) => if In(jobs, id,
        JobState.Running) { RestateSameDone(jobs, map[id := JobState.Preempted], done, done', {}); }
    case Forgotten(id) => if Arenas.Live(jobs, id) { RemoveSameDone(jobs, done, done', id); }
  }

  lemma DoomedAreOpen(jobs: Jobs, id: JobId)
    requires Small(jobs)
    ensures forall x :: x in Lifecycle.Doomed(jobs, id) ==> Open(jobs, x)
  {
    forall x | x in Lifecycle.Doomed(jobs, id) ensures Open(jobs, x) {
      var p :| WaitPath(jobs, p) && p[0] == id && p[|p| - 1] == x;
      assert Open(jobs, p[|p| - 1]);
    }
  }

  lemma RemoveSameDone(jobs: Jobs, done: set<JobId>, done': set<JobId>, id: JobId)
    requires SameDone(jobs, done, done') && Arenas.Live(jobs, id) && id.generation < U32_MAX
    ensures SameDone(Arenas.Remove(jobs, id), done, done')
  {
    var after := Arenas.Remove(jobs, id);
    forall x | Arenas.Live(after, x) ensures Arenas.Live(jobs, x) && Arenas.Value(after, x) == Arenas.Value(jobs, x) {}
    forall x | Arenas.Issued(jobs, x) ensures Arenas.Issued(after, x) {}
  }

  lemma SubmitSameDone(jobs: Jobs, done: set<JobId>, done': set<JobId>, id: JobId, job: Job)
    requires Small(jobs) && SameDone(jobs, done, done')
    ensures var a, b := Apply(Durable(jobs, done), Record.Submitted(id, job)),
              Apply(Durable(jobs, done'), Record.Submitted(id, job));
            && (a == None <==> b == None)
            && (a.Some? ==> a.value.jobs == b.value.jobs && SameDone(a.value.jobs, a.value.done, b.value.done))
  {
    var a := Apply(Durable(jobs, done), Record.Submitted(id, job));
    if a.Some? {
      var c := Classification(jobs, id, job.deps);
      InsertAdmits(jobs, job.(state := StateFor(c.readiness)));
      AdmittedSameDone(jobs, a.value.jobs, done, done', id, job.(state := StateFor(c.readiness)), c.readiness);
    }
  }

  lemma AdmittedSameDone(jobs: Jobs, after: Jobs, done: set<JobId>, done': set<JobId>, id: JobId, job: Job,
                         r: Readiness)
    requires SameDone(jobs, done, done') && Admits(jobs, after, id, job) && ClassifiesAs(jobs, id, job.deps, Verdict(r))
      && job.state == StateFor(r)
    ensures SameDone(after, done, done')
  {
    assert id !in done && id !in done';
    if !r.Doomed? {
      forall d | d in job.deps ensures d in done <==> d in done' { assert !Stops(jobs, id, d); }
    }
  }

  /** Records logged after a snapshot, replayed from two histories that agree, lead to the same arena. */
  lemma {:induction false} SuffixAgrees(jobs: Jobs, done: set<JobId>, done': set<JobId>, log: seq<Record>)
    requires Small(jobs) && SameDone(jobs, done, done') && LawfulLog(Durable(jobs, done), log)
    ensures var a, b := ReplayFrom(Durable(jobs, done), log), ReplayFrom(Durable(jobs, done'), log);
            && (a == None <==> b == None)
            && (a.Some? ==> a.value.jobs == b.value.jobs && SameDone(a.value.jobs, a.value.done, b.value.done))
    decreases |log|
  {
    if log != [] {
      var front, r := log[..|log| - 1], log[|log| - 1];
      SuffixAgrees(jobs, done, done', front);
      var a, b := ReplayFrom(Durable(jobs, done), front), ReplayFrom(Durable(jobs, done'), front);
      ApplySameDone(a.value.jobs, a.value.done, b.value.done, r);
    }
  }

  /** A log an engine could write next, starting from this state. */
  ghost predicate Continues(jobs: Jobs, done: set<JobId>, log: seq<Record>) {
    Small(jobs) && LawfulLog(Durable(jobs, done), log) && ReplayFrom(Durable(jobs, done), log).Some?
  }

  /** The log leads from the restored state to the arena it leads to from the saved one. */
  ghost predicate SameOutcome(jobs: Jobs, done: set<JobId>, log: seq<Record>) {
    && Small(jobs) && ReplayFrom(Durable(jobs, done), log).Some?
    && var b := ReplayFrom(Durable(Resumed(jobs), CompletedIds(jobs)), log);
       b.Some? && b.value.jobs == ReplayFrom(Durable(jobs, done), log).value.jobs
  }

  /** Snapshot plus log is as good as the whole log, for every log that may follow, exactly when the snapshot
      caught no eviction in flight. */
  lemma SnapshotThenLogIff(jobs: Jobs, b: Books)
    requires Inv(jobs, b) && AllDepsLive(jobs)
    ensures (forall log :: Continues(jobs, b.done, log) ==> SameOutcome(jobs, b.done, log)) <==> InFlight(jobs) == {}
  {
    if InFlight(jobs) == {} {
      assert All(InFlight(jobs), JobState.Ready) == map[];
      RestateNothing(jobs);
      SavedSameDone(jobs, b.done);
      forall log | Continues(jobs, b.done, log) ensures SameOutcome(jobs, b.done, log) {
        SuffixAgrees(jobs, b.done, CompletedIds(jobs), log);
      }
    } else {
      var x :| x in InFlight(jobs);
      ConfirmationRefused(jobs, b.done, x);
      assert Continues(jobs, b.done, [Requeued(x, 0)]) && !SameOutcome(jobs, b.done, [Requeued(x, 0)]);
    }
  }

  lemma SavedSameDone(jobs: Jobs, done: set<JobId>)
    requires Small(jobs) && HistoryOk(jobs, done) && AllDepsLive(jobs)
    ensures SameDone(jobs, done, CompletedIds(jobs))
  {
    forall x | Arenas.Live(jobs, x) ensures x in done <==> x in CompletedIds(jobs) { assert JobOk(jobs, done, x); }
    forall x, d | Open(jobs, x) && d in Arenas.Value(jobs, x).deps ensures d in done <==> d in CompletedIds(jobs) {
      assert DepsLive(jobs, x) && Arenas.Live(jobs, d);
    }
  }

  /** The worker's confirmation of an eviction, logged after the snapshot, cannot be replayed on the restored engine. */
  lemma ConfirmationRefused(jobs: Jobs, done: set<JobId>, x: JobId)
    requires Small(jobs) && In(jobs, x, JobState.Preempted)
    ensures Continues(jobs, done, [Requeued(x, 0)])
    ensures ReplayFrom(Durable(Resumed(jobs), CompletedIds(jobs)), [Requeued(x, 0)]) == None
  {
    var log := [Requeued(x, 0)];
    assert log[..|log| - 1] == [];
    assert x in InFlight(jobs);
    assert In(Resumed(jobs), x, JobState.Ready);
  }

  // ---- what replay does not restore ----

  /** Replay counts no eviction. */
  lemma {:induction false} ReplayCountsNothing(base: Durable, log: seq<Record>)
    requires Small(base.jobs) && Bounded(base.jobs, 1) && LawfulLog(base, log) && ReplayFrom(base, log).Some?
    ensures Bounded(ReplayFrom(base, log).value.jobs, 1)
    decreases |log|
  {
    if log != [] {
      var front, last := log[..|log| - 1], log[|log| - 1];
      ReplayCountsNothing(base, front);
      ApplyBounded(ReplayFrom(base, front).value, last, 1);
    }
  }

  lemma UncountedIsPlain(jobs: Jobs)
    requires Small(jobs) && Bounded(jobs, 1)
    ensures Plain(jobs) == jobs
  {
    forall i | 0 <= i < |jobs.slots| ensures PlainSlot(jobs.slots[i]) == jobs.slots[i] {
      if jobs.slots[i].Occupied? { assert Arenas.Live(jobs, JobId(i, jobs.slots[i].generation)); }
    }
    assert Plain(jobs).slots == jobs.slots;
  }

  /** An engine that counted no eviction before its log starts is its log's replay exactly when no live job has been
      evicted since; otherwise those jobs' counters start again at zero, and with them the cap on their evictions. */
  lemma ReplayIsExactIff(l: Life, max: nat)
    requires Good(l, max) && Bounded(l.base.jobs, 1)
    ensures Small(l.base.jobs) && ReplayFrom(l.base, l.log).Some?
    ensures ReplayFrom(l.base, l.log).value.jobs == l.jobs <==>
              forall x :: Arenas.Live(l.jobs, x) ==> Arenas.Value(l.jobs, x).preemptions == 0
    ensures forall x :: Arenas.Live(l.jobs, x) ==>
              && Arenas.Live(ReplayFrom(l.base, l.log).value.jobs, x)
              && Arenas.Value(ReplayFrom(l.base, l.log).value.jobs, x) == PlainJob(Arenas.Value(l.jobs, x))
  {
    GoodIsWhole(l, max);
    var r := ReplayFrom(l.base, l.log).value.jobs;
    ReplayCountsNothing(l.base, l.log);
    UncountedIsPlain(r);
    assert r == Plain(l.jobs);
    if forall x :: Arenas.Live(l.jobs, x) ==> Arenas.Value(l.jobs, x).preemptions == 0 { UncountedIsPlain(l.jobs); }
  }

  // ---- starting again ----

  /** Replays what was logged and settles what was in flight. */
  method Resume(e: Engine, records: seq<Record>, at: u64)
    requires e.scheduler.Parts() && Good(e.Life(), e.config.maxPreemptions + 1)
      && Bounded(e.jobs, e.config.maxPreemptions + 1)
    requires e.log == [] && ReplayedTo(e.base, records, 0, e.Life().Durable())
      && e.Binding() == Bindings.Binding([], [], [], [])
    modifies e, e.inventory, e.scheduler, e.scheduler.ready.low, e.scheduler.ready.normal, e.scheduler.ready.high,
             e.scheduler.ready.urgent, e.scheduler.deps, e.scheduler.fairshare
    ensures e.Valid() && e.base == e.Life().Durable() && e.log == []
    ensures Small(old(e.base).jobs) && ReplayFrom(old(e.base), records).Some?
    ensures RecoveredAs(e.jobs, e.scheduler.done, e.Binding(), ReplayFrom(old(e.base), records).value)
  {
    e.ReplayLog(records, e.config.maxPreemptions + 1);
    assert records[..|records|] == records;
    e.FinishRecovery(at);
  }

  /** From the very first log. */
  method RecoverFromLog(config: Config, retain: u64, window: u64, records: seq<Record>, at: u64) returns (e: Engine)
    requires LawfulLog(BLANK, records) && ReplayFrom(BLANK, records).Some?
    ensures fresh(e) && e.Valid() && e.config == config && e.base == e.Life().Durable() && e.log == []
    ensures fresh(e.inventory) && fresh(e.scheduler) && fresh(e.scheduler.deps) && fresh(e.scheduler.fairshare)
    ensures fresh(e.scheduler.ready.low) && fresh(e.scheduler.ready.normal) && fresh(e.scheduler.ready.high)
      && fresh(e.scheduler.ready.urgent)
    ensures RecoveredAs(e.jobs, e.scheduler.done, e.Binding(), ReplayFrom(BLANK, records).value)
  {
    e := new Engine.Empty(config, retain, window);
    FreshStart(e.Life(), config.maxPreemptions + 1);
    assert records[..0] == [];
    Resume(e, records, at);
  }

  /** The replayed arena with evictions in flight requeued; every Running job waits for its worker. */
  ghost predicate RecoveredAs(jobs: Jobs, done: set<JobId>, b: Binding, s: Durable) {
    && Small(s.jobs)
    && jobs == AfterRequeue(s.jobs, IdsIn(s.jobs.slots, JobState.Preempted)) && done == s.done
    && b == Bindings.Binding([], [], [], IdsIn(s.jobs.slots, JobState.Running))
  }

  lemma FreshStart(l: Life, max: nat)
    requires l == Lives.Life(Arenas.View([], None), Books({}, NOTHING, Tables([], [], []), []), BLANK, [], {})
    ensures Good(l, max) && Bounded(l.jobs, max)
  {
    EmptyGood(max);
  }

  /** Lawfulness looks only at the arena. */
  lemma {:induction false} LawfulTransfers(jobs: Jobs, done: set<JobId>, done': set<JobId>, log: seq<Record>)
    requires Small(jobs) && SameDone(jobs, done, done') && LawfulLog(Durable(jobs, done), log)
    ensures LawfulLog(Durable(jobs, done'), log)
    decreases |log|
  {
    if log != [] {
      var front := log[..|log| - 1];
      LawfulTransfers(jobs, done, done', front);
      SuffixAgrees(jobs, done, done', front);
    }
  }

  /** A restored engine is as good as the one that wrote the snapshot. */
  lemma RestoredGood(l: Life, jobs: Jobs, books: Books, noted: set<JobId>, max: nat)
    requires Good(l, max) && Small(l.jobs) && InFlight(l.jobs) == {} && jobs == Resumed(l.jobs) && Inv(jobs, books)
    requires noted == FinishedBelow(l.jobs, |l.jobs.slots|)
    ensures jobs == l.jobs && Bounded(jobs, max + 1)
    ensures Good(Lives.Life(jobs, books, Durable(jobs, books.done), [], noted), max + 1)
  {
    GoodIsWhole(l, max);
    assert All(InFlight(l.jobs), JobState.Ready) == map[];
    RestateNothing(l.jobs);
    FinishedMembers(l.jobs, |l.jobs.slots|);
    forall x | Arenas.Live(jobs, x) ensures ExtraOk(Arenas.Value(jobs, x), x in noted, max + 1)
        && Arenas.Value(jobs, x).preemptions < max + 1 {
      assert ExtraOk(Arenas.Value(l.jobs, x), x in l.noted, max);
    }
    var r := Lives.Life(jobs, books, Durable(jobs, books.done), [], noted);
    MirrorsAtStart(r.base);
    GoodIsWhole(r, max + 1);
  }

  /** What an engine in good order may be restored from: no forgotten dependency, nobody waiting upward, no eviction in
      flight. */
  ghost predicate SafeToSnapshot(jobs: Jobs) {
    Small(jobs) && AllDepsLive(jobs) && WaitsDownward(jobs) && InFlight(jobs) == {}
  }

  /** `s` is what the engine `l` wrote at a moment it may be restored from. Sealed: `Unlocked` unfolds it. */
  ghost predicate Saved(s: Snapshot, l: Life, max: nat) {
    forall k: int :: Unlocked(k) ==>
      && Good(l, max) && SafeToSnapshot(l.jobs) && |l.books.ledgers| <= MAX_ACCOUNTS
      && s == Snapshot(s.takenAt, l.jobs, IdsIn(l.jobs.slots, JobState.Running), l.books.ledgers)
  }

  lemma NoneInFlight(jobs: Jobs, x: JobId)
    requires Small(jobs) && InFlight(jobs) == {}
    ensures !In(jobs, x, JobState.Preempted)
  {
    var flying := InFlight(jobs);
    assert In(jobs, x, JobState.Preempted) ==> x in flying;
  }

  lemma SafeSnapshot(s: Snapshot, l: Life, max: nat)
    requires Saved(s, l, max)
    ensures Describes(s, s.jobs, l.books) && EvictionsHoldNothing(s.jobs) && |l.books.ledgers| <= MAX_ACCOUNTS
    ensures s.jobs == l.jobs && Small(l.jobs) && AllDepsLive(l.jobs) && WaitsDownward(l.jobs) && InFlight(l.jobs) == {}
      && Good(l, max)
  {
    assert Unlocked(0);
    GoodIsWhole(l, max);
    forall x ensures !In(l.jobs, x, JobState.Preempted) { NoneInFlight(l.jobs, x); }
  }

  lemma SafeRestored(s: Snapshot, l: Life, jobs: Jobs, books: Books, noted: set<JobId>, max: nat)
    requires Saved(s, l, max) && |s.jobs.slots| <= U32_MAX && jobs == Resumed(s.jobs)
    requires books.done == CompletedIds(s.jobs) && noted == FinishedBelow(s.jobs, |s.jobs.slots|)
    requires Inv(jobs, books) <==> WaitsDownward(s.jobs) && EvictionsHoldNothing(s.jobs)
    ensures jobs == l.jobs && Bounded(jobs, max + 1)
    ensures Good(Lives.Life(jobs, books, Durable(jobs, books.done), [], noted), max + 1)
  {
    SafeSnapshot(s, l, max);
    RestoredGood(l, jobs, books, noted, max);
  }

  lemma SafeSuffix(s: Snapshot, l: Life, records: seq<Record>, max: nat)
    requires Saved(s, l, max) && Continues(l.jobs, l.books.done, records)
    ensures Small(l.jobs)
      && ReplayedTo(Durable(l.jobs, CompletedIds(l.jobs)), records, 0, Durable(l.jobs, CompletedIds(l.jobs)))
    ensures ReplayFrom(Durable(l.jobs, CompletedIds(l.jobs)),
                       records).value.jobs == ReplayFrom(l.Durable(), records).value.jobs
  {
    SafeSnapshot(s, l, max);
    GoodIsWhole(l, max);
    SavedSameDone(l.jobs, l.books.done);
    SuffixAgrees(l.jobs, l.books.done, CompletedIds(l.jobs), records);
    LawfulTransfers(l.jobs, l.books.done, CompletedIds(l.jobs), records);
    assert records[..0] == [];
  }

  /** An empty engine filled from a snapshot, ready to replay what was logged after it. */
  method FillFrom(e: Engine, s: Snapshot, ghost l: Life)
    requires Saved(s, l, e.config.maxPreemptions)
    requires e.scheduler.Parts() && e.scheduler.Books() == Books({}, NOTHING, Tables([], [], []), [])
      && e.terminal == []
    modifies e`jobs, e`terminal, e`base, e`log, e.scheduler, e.scheduler.ready.low, e.scheduler.ready.normal,
             e.scheduler.ready.high, e.scheduler.ready.urgent, e.scheduler.deps, e.scheduler.fairshare
    ensures e.scheduler.Parts() && Good(e.Life(), e.config.maxPreemptions + 1)
      && Bounded(e.jobs, e.config.maxPreemptions + 1)
    ensures e.log == [] && e.base == e.Life().Durable() && Small(l.jobs)
      && e.base == Durable(l.jobs, CompletedIds(l.jobs))
  {
    SafeSnapshot(s, l, e.config.maxPreemptions);
    var ok := RestoreSnapshot(e, s, l.books);
    ghost var books := e.scheduler.Books();
    SafeRestored(s, l, e.jobs, books, Noted(e.terminal), e.config.maxPreemptions);
    e.base, e.log := Durable(e.jobs, books.done), [];
    assert e.Life() == Lives.Life(e.jobs, books, Durable(e.jobs, books.done), [], Noted(e.terminal));
  }

  /** From a snapshot and what was logged after it: the arena the old engine had reached, with evictions requeued. */
  method RecoverFromSnapshot(config: Config, retain: u64, window: u64, s: Snapshot, records: seq<Record>, at: u64,
                             ghost l: Life) returns (e: Engine)
    requires Saved(s, l, config.maxPreemptions) && Continues(l.jobs, l.books.done, records)
    ensures fresh(e) && e.Valid() && e.config == config && e.base == e.Life().Durable() && e.log == []
    ensures fresh(e.inventory) && fresh(e.scheduler) && fresh(e.scheduler.deps) && fresh(e.scheduler.fairshare)
    ensures fresh(e.scheduler.ready.low) && fresh(e.scheduler.ready.normal) && fresh(e.scheduler.ready.high)
      && fresh(e.scheduler.ready.urgent)
    ensures var jobs := ReplayFrom(l.Durable(), records).value.jobs;
            Small(jobs) && e.jobs == AfterRequeue(jobs, IdsIn(jobs.slots, JobState.Preempted))
                && e.held == IdsIn(jobs.slots, JobState.Running)
  {
    e := new Engine.Empty(config, retain, window);
    FillFrom(e, s, l);
    SafeSuffix(s, l, records, config.maxPreemptions);
    Resume(e, records, at);
  }
}
