/** Runs that reach the states in which the engine does not do what it promises. */
module Findings {
  import opened Domain
  import Arenas
  import opened Slots
  import opened Priority
  import opened Eligibility
  import opened Lifecycle
  import opened Admission
  import opened Transitions
  import opened Replay
  import opened Bindings
  import opened Lives
  import opened Engines
  import opened EvictionRuns
  import opened Restores
  import opened Recoveries

  lemma FirstSubmitted()
    ensures Apply(BLANK, Record.Submitted(FIRST_ID, SMALL_JOB)) == Some(Durable(Alone(JobState.Ready), {}))
  {
    EmptyInv();
    assert CanAdmit(BLANK.jobs) && Arenas.NextId(BLANK.jobs) == FIRST_ID;
    assert Classification(BLANK.jobs, FIRST_ID, SMALL_JOB.deps) == Verdict(CanRun);
    assert AfterSubmission(BLANK.jobs, SMALL_JOB, CanRun).slots == Alone(JobState.Ready).slots;
  }

  lemma AloneMoves(state: JobState, next: JobState)
    ensures AfterMove(Alone(state), FIRST_ID, next) == Alone(next)
  {
    assert AfterMove(Alone(state), FIRST_ID, next).slots == Alone(next).slots;
  }

  const STARTED: seq<Record> := [Record.Submitted(FIRST_ID, SMALL_JOB), Record.Dispatched(FIRST_ID, 0)]

  lemma StartedReplays()
    ensures LawfulLog(BLANK, STARTED) && ReplayFrom(BLANK, STARTED) == Some(Durable(Alone(JobState.Running), {}))
  {
    var one := [STARTED[0]];
    FirstSubmitted();
    AloneMoves(JobState.Ready, JobState.Running);
    ReplayOneMore(BLANK, [], STARTED[0]);
    LawfulOneMore(BLANK, [], STARTED[0]);
    assert [] + [STARTED[0]] == one && one + [STARTED[1]] == STARTED;
    ReplayOneMore(BLANK, one, STARTED[1]);
    LawfulOneMore(BLANK, one, STARTED[1]);
  }

  lemma AloneIds(state: JobState)
    ensures IdsIn(Alone(state).slots, state) == [FIRST_ID]
    ensures forall other: JobState :: other != state ==> IdsIn(Alone(state).slots, other) == []
  {
    var slots := Alone(state).slots;
    assert slots[..0] == [];
    assert IdsIn([], state) == [];
  }

  /** An engine restarted from a log in which one job was dispatched: the job waits for its worker. */
  method Restarted(config: Config, retain: u64, window: u64) returns (e: Engine)
    ensures fresh(e) && e.Valid() && e.config == config
    ensures fresh(e.inventory) && fresh(e.scheduler) && fresh(e.scheduler.deps) && fresh(e.scheduler.fairshare)
    ensures fresh(e.scheduler.ready.low) && fresh(e.scheduler.ready.normal) && fresh(e.scheduler.ready.high)
      && fresh(e.scheduler.ready.urgent)
    ensures e.jobs == Alone(JobState.Running) && e.Binding() == Bindings.Binding([], [], [], [FIRST_ID])
  {
    StartedReplays();
    AloneIds(JobState.Running);
    e := RecoverFromLog(config, retain, window, STARTED, 0);
    RequeueNone(Alone(JobState.Running));
  }

  /** A report of an eviction nobody asked for takes the job off the reconcile list and leaves it Running, bound to
      nothing. */
  method StrayPreemptedReport(config: Config, retain: u64, window: u64) returns (e: Engine)
    ensures fresh(e) && e.Steady() && In(e.jobs, FIRST_ID, JobState.Running) && FIRST_ID in e.Strays()
  {
    e := Restarted(config, retain, window);
    e.OnPreemptedReport(FIRST_ID, 0);
  }

  const PLENTY: Resources := Vec(10, 10, 10)

  /** The job's worker comes back, with room for it. */
  method Reclaimed(config: Config, retain: u64, window: u64) returns (e: Engine, slot: SlotIndex)
    ensures fresh(e) && e.Valid() && e.config == config
    ensures fresh(e.inventory) && fresh(e.scheduler) && fresh(e.scheduler.deps) && fresh(e.scheduler.fairshare)
    ensures fresh(e.scheduler.ready.low) && fresh(e.scheduler.ready.normal) && fresh(e.scheduler.ready.high)
      && fresh(e.scheduler.ready.urgent)
    ensures e.jobs == Alone(JobState.Running) && FIRST_ID in JobsOn(e.running, slot) && FIRST_ID in RunIds(e.running)
  {
    e := Restarted(config, retain, window);
    slot := e.Attach("w", PLENTY);
    assert e.inventory.slots == [WorkerSlot(PLENTY, ZERO)] && slot == 0;
    var kill := e.Claim(FIRST_ID, slot, 0);
    OnSlotRuns(e.running, slot, FIRST_ID);
  }

  /** The worker goes while the daemon is leaving: its job stays Running, bound to nothing. */
  method LostWhileQuiescing(config: Config, retain: u64, window: u64) returns (e: Engine)
    ensures fresh(e) && e.Steady() && In(e.jobs, FIRST_ID, JobState.Running) && FIRST_ID in e.Strays()
  {
    var slot;
    e, slot := Reclaimed(config, retain, window);
    ghost var there := Abandoned(e.running, slot);
    e.EvictSlot(slot, true, 0);
    assert FIRST_ID in there;
  }

  /** A snapshot taken while the job is being evicted: the confirmation logged after it cannot be replayed, and the
      restored scheduler would go on charging for it. A worker joining, two submissions and two ticks lead there. */
  method SnapshotMidEviction(config: Config, retain: u64, window: u64, now: u64) returns (e: Engine)
    requires Willing(config)
    ensures fresh(e) && e.Valid() && Small(e.jobs) && AllDepsLive(e.jobs) && !EvictionsHoldNothing(e.jobs)
    ensures InFlight(e.jobs) == {FIRST_ID} && Recoveries.Continues(e.jobs, e.scheduler.done, [Requeued(FIRST_ID, 0)])
    ensures !SameOutcome(e.jobs, e.scheduler.done, [Requeued(FIRST_ID, 0)])
  {
    e := new Engine.Empty(config, retain, window);
    Occupy(e, now);
    Contest(e, now, now);
    ConfirmationRefused(e.jobs, e.scheduler.done, FIRST_ID);
    EvictingFirst();
  }

  lemma EvictingFirst()
    ensures var jobs := Contested(SMALL_JOB.(state := JobState.Preempted));
            AllDepsLive(jobs) && !EvictionsHoldNothing(jobs) && InFlight(jobs) == {FIRST_ID}
  {
    var jobs := Contested(SMALL_JOB.(state := JobState.Preempted));
    assert In(jobs, FIRST_ID, JobState.Preempted);
    forall x ensures x in InFlight(jobs) <==> x == FIRST_ID {}
  }

  /** The same run, with the eviction confirmed: the live engine has counted it and its log's replay has not. */
  method EvictionNotReplayed(config: Config, retain: u64, window: u64, now: u64) returns (e: Engine)
    requires Willing(config)
    ensures fresh(e) && e.Valid() && e.base == BLANK
    ensures Arenas.Live(e.jobs, FIRST_ID) && Arenas.Value(e.jobs, FIRST_ID).preemptions == 1
    ensures ReplayFrom(BLANK, e.log).Some? && ReplayFrom(BLANK, e.log).value.jobs != e.jobs
  {
    e := new Engine.Empty(config, retain, window);
    Occupy(e, now);
    Contest(e, now, now);
    assert RunIds(e.running)[0] == FIRST_ID;
    e.OnPreemptedReport(FIRST_ID, now);
    FirstCounted();
    ReplayIsExactIff(e.Life(), config.maxPreemptions);
  }

  lemma FirstCounted()
    ensures var jobs := Contested(SMALL_JOB.(state := JobState.Preempted));
            var after := AfterMove(Bump(jobs, FIRST_ID), FIRST_ID, JobState.Ready);
            Arenas.Live(after, FIRST_ID) && Arenas.Value(after, FIRST_ID).preemptions == 1
  {
    var jobs := Contested(SMALL_JOB.(state := JobState.Preempted));
    BumpIsTwin(jobs, FIRST_ID);
    assert Arenas.Value(Bump(jobs, FIRST_ID), FIRST_ID).preemptions == 1;
  }

  const DEPENDENT: Job := SMALL_JOB.(deps := [FIRST_ID])

  /** The first job finished and `second` submitted behind it. */
  function Both(second: Job): Jobs {
    Arenas.View([Arenas.Occupied(0,
                                 SMALL_JOB.(state := JobState.Completed)),
                                     Arenas.Occupied(0, second.(state := JobState.Ready))], None)
  }

  /** The first forgotten: its slot is free again. */
  function Vacated(second: Job): Jobs {
    Arenas.View([Arenas.Vacant(1, None), Arenas.Occupied(0, second.(state := JobState.Ready))], Some(0))
  }

  lemma FirstCompleted()
    ensures Apply(Durable(Alone(JobState.Running), {}), Record.Completed(FIRST_ID, 0))
              == Some(Durable(Alone(JobState.Completed), {FIRST_ID}))
  {
    var jobs := Alone(JobState.Running);
    assert MayBecome(jobs, FIRST_ID, JobState.Completed);
    assert AfterCompletion(jobs, {}, FIRST_ID).slots == Alone(JobState.Completed).slots;
    assert {} + {FIRST_ID} == {FIRST_ID};
  }

  lemma SecondSubmitted(second: Job)
    requires second == SMALL_JOB || second == DEPENDENT
    ensures Apply(Durable(Alone(JobState.Completed), {FIRST_ID}), Record.Submitted(SECOND_ID, second))
              == Some(Durable(Both(second), {FIRST_ID}))
  {
    var jobs := Alone(JobState.Completed);
    assert Arenas.FreeListExact(jobs.slots, jobs.freeHead, []);
    assert CanAdmit(jobs) && Arenas.NextId(jobs) == SECOND_ID;
    if second == DEPENDENT {
      assert Arenas.Live(jobs, FIRST_ID) && second.deps[0] == FIRST_ID;
      assert StopFrom(jobs, SECOND_ID, second.deps, 1) == 1;
    }
    assert Classification(jobs, SECOND_ID, second.deps) == Verdict(CanRun);
    assert AfterSubmission(jobs, second, CanRun).slots == Both(second).slots;
  }

  lemma FirstForgotten(second: Job)
    ensures Apply(Durable(Both(second), {FIRST_ID}), Forgotten(FIRST_ID)) == Some(Durable(Vacated(second), {FIRST_ID}))
  {
    var jobs := Both(second);
    assert Arenas.Live(jobs, FIRST_ID);
    assert Arenas.Remove(jobs, FIRST_ID).slots == Vacated(second).slots;
  }

  /** A log that leads from `s` to `t` by one more record. */
  lemma LogGrows(log: seq<Record>, s: Durable, r: Record, t: Durable)
    requires LawfulLog(BLANK, log) && ReplayFrom(BLANK, log) == Some(s) && Small(s.jobs) && Fits(s, r)
      && Apply(s, r) == Some(t)
    ensures LawfulLog(BLANK, log + [r]) && ReplayFrom(BLANK, log + [r]) == Some(t)
  {
    ReplayOneMore(BLANK, log, r);
    LawfulOneMore(BLANK, log, r);
  }

  function Forgetful(second: Job): seq<Record> {
    STARTED + [Record.Completed(FIRST_ID, 0)] + [Record.Submitted(SECOND_ID, second)] + [Forgotten(FIRST_ID)]
  }

  lemma ForgetfulReplays(second: Job)
    requires second == SMALL_JOB || second == DEPENDENT
    ensures LawfulLog(BLANK, Forgetful(second))
      && ReplayFrom(BLANK, Forgetful(second)) == Some(Durable(Vacated(second), {FIRST_ID}))
  {
    var two := STARTED + [Record.Completed(FIRST_ID, 0)];
    StartedReplays();
    FirstCompleted();
    LogGrows(STARTED, Durable(Alone(JobState.Running), {}), Record.Completed(FIRST_ID, 0),
             Durable(Alone(JobState.Completed), {FIRST_ID}));
    SecondSubmitted(second);
    LogGrows(two, Durable(Alone(JobState.Completed), {FIRST_ID}), Record.Submitted(SECOND_ID, second),
             Durable(Both(second), {FIRST_ID}));
    FirstForgotten(second);
    assert Arenas.Live(Both(second), FIRST_ID) && StateOf(Both(second), FIRST_ID).IsTerminal();
    LogGrows(two + [Record.Submitted(SECOND_ID, second)], Durable(Both(second), {FIRST_ID}), Forgotten(FIRST_ID),
             Durable(Vacated(second), {FIRST_ID}));
  }

  lemma NoneEvicting(jobs: Jobs)
    requires |jobs.slots| == 2 && forall i :: 0 <= i < 2 ==> jobs.slots[i].Occupied? ==>
              !jobs.slots[i].value.state.Preempted?
    ensures IdsIn(jobs.slots, JobState.Preempted) == []
  {
    var one := jobs.slots[..1];
    assert one[..0] == [] && IdsIn(one[..0], JobState.Preempted) == [];
    assert IdsIn(one, JobState.Preempted) == [];
  }

  /** An engine in good order whose snapshot no engine can load: an open job's dependency was forgotten. */
  method ForgottenDependency(config: Config, retain: u64, window: u64) returns (e: Engine)
    ensures fresh(e) && e.Valid() && !AllDepsLive(e.jobs)
  {
    ForgetfulReplays(DEPENDENT);
    e := RecoverFromLog(config, retain, window, Forgetful(DEPENDENT), 0);
    NoneEvicting(Vacated(DEPENDENT));
    RequeueNone(Vacated(DEPENDENT));
    assert e.jobs == Vacated(DEPENDENT);
    assert Open(e.jobs, SECOND_ID) && FIRST_ID in Arenas.Value(e.jobs, SECOND_ID).deps
        && !Arenas.Live(e.jobs, FIRST_ID);
  }

  const THIRD_ID: JobId := JobId(0, 1)

  /** Waits for the second job, from the slot below it. */
  const WAITER: Job := SMALL_JOB.(deps := [SECOND_ID])

  const UPWARD: Jobs := Reused(WAITER.(state := JobState.Blocked), SMALL_JOB.(state := JobState.Ready))

  lemma ThirdSubmitted()
    ensures Apply(Durable(Vacated(SMALL_JOB), {FIRST_ID}), Record.Submitted(THIRD_ID, WAITER))
              == Some(Durable(UPWARD, {FIRST_ID}))
  {
    var jobs := Vacated(SMALL_JOB);
    assert Arenas.FreeListExact(jobs.slots, jobs.freeHead, [0]);
    assert CanAdmit(jobs) && Arenas.NextId(jobs) == THIRD_ID;
    assert Arenas.Live(jobs, SECOND_ID) && WAITER.deps[0] == SECOND_ID && SECOND_ID in WAITER.deps;
    assert StopFrom(jobs, THIRD_ID, WAITER.deps, 1) == 1;
    assert Classification(jobs, THIRD_ID, WAITER.deps) == Verdict(MustWait);
    assert AfterSubmission(jobs, WAITER, MustWait).slots == UPWARD.slots;
  }

  /** An engine in good order whose snapshot loads with an edge missing: a job waits for one in a higher slot. */
  method WaitsUpward(config: Config, retain: u64, window: u64) returns (e: Engine)
    ensures fresh(e) && e.Valid() && AllDepsLive(e.jobs) && !WaitsDownward(e.jobs) && e.jobs == UPWARD
  {
    ForgetfulReplays(SMALL_JOB);
    ThirdSubmitted();
    LogGrows(Forgetful(SMALL_JOB), Durable(Vacated(SMALL_JOB), {FIRST_ID}), Record.Submitted(THIRD_ID, WAITER),
             Durable(UPWARD, {FIRST_ID}));
    e := RecoverFromLog(config, retain, window, Forgetful(SMALL_JOB) + [Record.Submitted(THIRD_ID, WAITER)], 0);
    NoneEvicting(UPWARD);
    RequeueNone(UPWARD);
    RestoreLosesAnEdge(WAITER.(state := JobState.Blocked), SMALL_JOB.(state := JobState.Ready));
  }
}
