/** A run of commands and ticks in which a job is evicted for another of a higher class. */
module EvictionRuns {
  import opened Domain
  import Arenas
  import opened Slots
  import opened Reservation
  import opened Placement
  import opened Priority
  import opened Eligibility
  import opened ReadySets
  import opened Lifecycle
  import opened Admission
  import opened Transitions
  import opened Cycles
  import opened Replay
  import opened Bindings
  import opened Lives
  import opened Schedulers
  import opened Preemption
  import opened Engines

  const FIRST_ID: JobId := JobId(0, 0)
  const SECOND_ID: JobId := JobId(1, 0)

  const ONE: Resources := Vec(1, 0, 0)

  const SMALL_JOB: Job := Job(0, Low, 0, ONE, 0, [], [], JobState.Submitted, 0)

  /** As small, and more important. */
  const RIVAL: Job := SMALL_JOB.(priorityClass := Urgent)

  /** One job in slot 0, in `state`. */
  function Alone(state: JobState): Jobs { Arenas.View([Arenas.Occupied(0, SMALL_JOB.(state := state))], None) }

  /** The first job in `state` and its rival waiting. */
  function Contested(first: Job): Jobs {
    Arenas.View([Arenas.Occupied(0, first), Arenas.Occupied(0, RIVAL.(state := JobState.Ready))], None)
  }

  lemma FirstAdmitted()
    ensures CanAdmit(BLANK.jobs) && Arenas.NextId(BLANK.jobs) == FIRST_ID && Roomy(BLANK.jobs)
    ensures Classification(BLANK.jobs, FIRST_ID, SMALL_JOB.deps) == Verdict(CanRun)
    ensures AfterSubmission(BLANK.jobs, SMALL_JOB, CanRun) == Alone(JobState.Ready)
  {
    EmptyInv();
    assert AfterSubmission(BLANK.jobs, SMALL_JOB, CanRun).slots == Alone(JobState.Ready).slots;
  }

  lemma RivalAdmitted()
    ensures var jobs := Alone(JobState.Running);
            && CanAdmit(jobs) && Arenas.NextId(jobs) == SECOND_ID && Roomy(jobs)
            && Classification(jobs, SECOND_ID, RIVAL.deps) == Verdict(CanRun)
            && AfterSubmission(jobs, RIVAL, CanRun) == Contested(SMALL_JOB.(state := JobState.Running))
  {
    var jobs := Alone(JobState.Running);
    assert Arenas.FreeListExact(jobs.slots, jobs.freeHead, []);
    assert AfterSubmission(jobs, RIVAL, CanRun).slots == Contested(SMALL_JOB.(state := JobState.Running)).slots;
  }

  // ---- who a tick looks at ----

  /** Settings under which a cycle looks at a job at all and may evict for one of the highest class. */
  predicate Willing(config: Config) {
    && config.maxCandidates > 0 && config.budget.maxDecisions > 0 && config.budget.maxScanned > 0
    && config.minClass.Some? && config.maxPreemptions > 0
  }

  lemma GoodQueue(l: Life, max: nat)
    requires Good(l, max)
    ensures QueueOk(l.jobs, l.books.queues)
  {
    GoodIsWhole(l, max);
  }

  lemma AllTheSame(ids: seq<JobId>, id: JobId)
    requires NoDuplicates(ids) && id in ids && forall x :: x in ids ==> x == id
    ensures ids == [id]
  {
    var n := |ids| - 1;
    assert ids[0] in ids && ids[n] in ids;
    assert ids[0] == ids[n];
    assert n == 0;
  }

  /** The only Ready job is the only candidate. */
  lemma OneCandidate(jobs: Jobs, q: Queues, candidates: seq<ReadyEntry>, limit: nat, id: JobId)
    requires Candidates(candidates, jobs) && Foremost(q, EntryJobs(candidates), limit) && QueueOk(jobs, q) && limit > 0
    requires forall x :: In(jobs, x, JobState.Ready) <==> x == id
    ensures |candidates| == 1 && candidates[0].job == id
  {
    var ids := EntryJobs(candidates);
    assert In(jobs, id, JobState.Ready);
    assert Queued(q, Arenas.Value(jobs, id).priorityClass, id);
    if |ids| == limit { assert ids[0] in ids; }
    AllTheSame(ids, id);
  }

  // ---- the tick that starts the job ----

  lemma StartsAlone(table: seq<nat>, plan: Plan, b: Books, now: u64, config: Config, slots': seq<WorkerSlot>,
                    running': seq<RunningJob>)
    requires var ran := CycleOutcome(table, plan, Alone(JobState.Ready), b, [WorkerSlot(ONE, ZERO)], [], now, config,
                                     slots', running'); ran
    requires QueueOk(Alone(JobState.Ready), b.queues) && Willing(config)
    ensures plan.Decisions() == [Decision(FIRST_ID, 0)] && plan.head == None && slots' == [WorkerSlot(ONE, ONE)]
    ensures running' == [RunningJob(FIRST_ID, 0, ONE, SaturatingAddTime(now, 0))]
  {
    var jobs, slots := Alone(JobState.Ready), [WorkerSlot(ONE, ZERO)];
    OneCandidate(jobs, b.queues, plan.candidates, config.maxCandidates, FIRST_ID);
    assert FitsNow(slots, ONE, 0);
    assert FirstFit(slots, ONE) == Some(0);
    assert Charge(slots, 0, ONE) == [WorkerSlot(ONE, ONE)];
    assert PackFrom(plan.candidates, jobs, Charge(slots, 0, ONE), config.budget, 1, 1, 1)
        == PackRun([], [WorkerSlot(ONE, ONE)], None, false);
    assert plan.packed == [Decision(FIRST_ID, 0)];
  }

  // ---- the tick that evicts it ----

  function Occupant(now: u64): RunningJob { RunningJob(FIRST_ID, 0, ONE, SaturatingAddTime(now, 0)) }

  lemma NothingFits(table: seq<nat>, plan: Plan, b: Books, began: u64, now: u64, config: Config,
                    slots': seq<WorkerSlot>, running': seq<RunningJob>)
    requires var jobs := Contested(SMALL_JOB.(state := JobState.Running));
             var ran := CycleOutcome(table, plan, jobs, b, [WorkerSlot(ONE, ONE)], [Occupant(began)], now, config,
                                     slots', running');
             ran && QueueOk(jobs, b.queues)
    requires Willing(config)
    ensures plan.Decisions() == [] && plan.head == Some(0) && |plan.candidates| == 1
      && plan.candidates[0].job == SECOND_ID
    ensures slots' == [WorkerSlot(ONE, ONE)] && running' == [Occupant(began)]
  {
    var jobs, slots := Contested(SMALL_JOB.(state := JobState.Running)), [WorkerSlot(ONE, ONE)];
    OneCandidate(jobs, b.queues, plan.candidates, config.maxCandidates, SECOND_ID);
    assert !FitsNow(slots, ONE, 0);
    assert FirstFit(slots, ONE) == None;
    assert plan.packed == [] && plan.filled == [];
    assert [Occupant(began)] + [] == [Occupant(began)];
  }

  lemma TheOnlyVictim(began: u64, max: nat)
    requires max > 0
    ensures VictimsOn(Contested(SMALL_JOB.(state := JobState.Running)), RIVAL.(state := JobState.Ready), max,
                      [Occupant(began)], 0) == [VictimOf(Occupant(began), SMALL_JOB)]
  {
    var jobs, head := Contested(SMALL_JOB.(state := JobState.Running)), RIVAL.(state := JobState.Ready);
    var running := [Occupant(began)];
    assert running[..0] == [] && VictimsOn(jobs, head, max, running[..0], 0) == [];
    assert Eligible(jobs, head, max, FIRST_ID);
  }

  lemma OneSuffices(v: Victim)
    requires v.resources == ONE
    ensures Suffices(ONE, ZERO, [v], 1)
  {
    assert Freed(ZERO, [v], 0) == ZERO;
  }

  lemma TheOnlyOffer(began: u64, now: u64, max: nat)
    requires max > 0
    ensures Offers(Contested(SMALL_JOB.(state := JobState.Running)), RIVAL.(state := JobState.Ready), max,
                   [Occupant(began)], [WorkerSlot(ONE, ONE)], 0, now,
                   var v := VictimOf(Occupant(began), SMALL_JOB); Offer([v], 1, Lost([v], 1, now)))
  {
    TheOnlyVictim(began, max);
    OneSuffices(VictimOf(Occupant(began), SMALL_JOB));
  }

  lemma BestIsOnlyOffer(began: u64, now: u64, max: nat, best: Option<(SlotIndex, Offer)>)
    requires max > 0
    requires BestBelow(Contested(SMALL_JOB.(state := JobState.Running)), RIVAL.(state := JobState.Ready), max,
                       [Occupant(began)], [WorkerSlot(ONE, ONE)], 1, now, best)
    ensures var v := VictimOf(Occupant(began), SMALL_JOB); best == Some((0, Offer([v], 1, Lost([v], 1, now))))
  {
    var v := VictimOf(Occupant(began), SMALL_JOB);
    TheOnlyOffer(began, now, max);
    OfferIsUnique(Contested(SMALL_JOB.(state := JobState.Running)), RIVAL.(state := JobState.Ready), max,
                  [Occupant(began)], [WorkerSlot(ONE, ONE)], 0, now, best.value.1, Offer([v], 1, Lost([v], 1, now)));
  }

  /** The plan for the rival is to evict the occupant. */
  lemma EvictsOccupant(began: u64, now: u64, config: Config, evictions: seq<Eviction>)
    requires BestPlan(Contested(SMALL_JOB.(state := JobState.Running)), RIVAL.(state := JobState.Ready),
                      [Occupant(began)], [WorkerSlot(ONE, ONE)], now, config, evictions)
    requires Willing(config)
    ensures EvictedJobs(evictions) == [FIRST_ID]
  {
    var jobs, head := Contested(SMALL_JOB.(state := JobState.Running)), RIVAL.(state := JobState.Ready);
    assert MayPlan(jobs, head, [Occupant(began)], config);
    var best :| Chosen(jobs, head, [Occupant(began)], [WorkerSlot(ONE, ONE)], now, config, best, evictions);
    BestIsOnlyOffer(began, now, config.maxPreemptions, best);
    assert best.value.1.vs[..1] == best.value.1.vs;
  }

  // ---- what the ticks leave ----

  /** With nothing finished and nobody held, settling changes nothing. */
  lemma NothingToSettle(jobs: Jobs, log: seq<Record>, c: Clock, jobs': Jobs, log': seq<Record>,
                        queue': seq<(u64, JobId)>, held': seq<JobId>, until': Option<u64>)
    requires Settles(jobs, log, [], [], c, jobs', log', queue', held', until')
    ensures jobs' == jobs && log' == log && queue' == [] && held' == []
  {
    assert Unlocked(0);
    var kept, records :| Expires(jobs, log, [], c.now, c.retain, kept, records, queue')
      && Reconciles(kept, records, [], c, jobs', log', held', until');
    assert Overdue([], c.now, c.retain) == 0;
  }

  lemma AlonePlaced(plan: Plan, evictions: seq<Eviction>)
    requires plan.Decisions() == [Decision(FIRST_ID, 0)] && evictions == []
    ensures AfterPlacing(Alone(JobState.Ready), plan, evictions) == Alone(JobState.Running)
  {
    assert JobsOf(plan.Decisions()) == [FIRST_ID] && EvictedJobs(evictions) == [];
    PreemptNone(AfterDispatch(Alone(JobState.Ready), [FIRST_ID]));
    assert FIRST_ID in Elements([FIRST_ID]);
    assert AfterDispatch(Alone(JobState.Ready), [FIRST_ID]).slots == Alone(JobState.Running).slots;
  }

  lemma ContestedPlaced(plan: Plan, evictions: seq<Eviction>)
    requires plan.Decisions() == [] && EvictedJobs(evictions) == [FIRST_ID]
    ensures AfterDispatch(Contested(SMALL_JOB.(state := JobState.Running)), JobsOf(plan.Decisions()))
         == Contested(SMALL_JOB.(state := JobState.Running))
    ensures AfterPlacing(Contested(SMALL_JOB.(state := JobState.Running)), plan, evictions)
         == Contested(SMALL_JOB.(state := JobState.Preempted))
  {
    var jobs := Contested(SMALL_JOB.(state := JobState.Running));
    assert JobsOf(plan.Decisions()) == [];
    DispatchNone(jobs);
    assert FIRST_ID in Elements([FIRST_ID]) && SECOND_ID !in Elements([FIRST_ID]);
    assert AfterPreempt(jobs, [FIRST_ID]).slots == Contested(SMALL_JOB.(state := JobState.Preempted)).slots;
  }

  lemma FirstTick(table: seq<nat>, plan: Plan, b: Books, now: u64, config: Config, slots': seq<WorkerSlot>,
                  running': seq<RunningJob>, evictions: seq<Eviction>)
    requires Scheduled(table, plan, Alone(JobState.Ready), b, [WorkerSlot(ONE, ZERO)], [], now, config, slots',
                       running')
    requires QueueOk(Alone(JobState.Ready), b.queues) && Willing(config)
    requires EvictedFor(plan, AfterDispatch(Alone(JobState.Ready), JobsOf(plan.Decisions())), running', slots', now,
                        config, evictions)
    ensures slots' == [WorkerSlot(ONE, ONE)] && running' == [Occupant(now)]
    ensures AfterPlacing(Alone(JobState.Ready), plan, evictions) == Alone(JobState.Running)
  {
    assert Unlocked(0);
    StartsAlone(table, plan, b, now, config, slots', running');
    AlonePlaced(plan, evictions);
  }

  lemma SecondTick(table: seq<nat>, plan: Plan, b: Books, began: u64, now: u64, config: Config,
                   slots': seq<WorkerSlot>, running': seq<RunningJob>, evictions: seq<Eviction>)
    requires var jobs := Contested(SMALL_JOB.(state := JobState.Running));
             && QueueOk(jobs, b.queues) && Willing(config)
             && Scheduled(table, plan, jobs, b, [WorkerSlot(ONE, ONE)], [Occupant(began)], now, config, slots',
                          running')
             && EvictedFor(plan, AfterDispatch(jobs, JobsOf(plan.Decisions())), running', slots', now, config,
                           evictions)
    ensures slots' == [WorkerSlot(ONE, ONE)] && running' == [Occupant(began)]
    ensures AfterPlacing(Contested(SMALL_JOB.(state := JobState.Running)), plan, evictions)
         == Contested(SMALL_JOB.(state := JobState.Preempted))
  {
    assert Unlocked(0);
    var jobs := Contested(SMALL_JOB.(state := JobState.Running));
    NothingFits(table, plan, b, began, now, config, slots', running');
    DispatchNone(jobs);
    assert JobsOf(plan.Decisions()) == [];
    EvictsOccupant(began, now, config, evictions);
    ContestedPlaced(plan, evictions);
  }

  // ---- the run ----

  /** A worker joins with room for one, the first job is submitted, and the tick starts it. */
  method Occupy(e: Engine, now: u64)
    requires e.Valid() && e.jobs == BLANK.jobs && e.Binding() == Bindings.Binding([], [], [], []) && e.terminal == []
    requires Willing(e.config)
    modifies e, e.inventory, e.scheduler, e.scheduler.ready.low, e.scheduler.ready.normal, e.scheduler.ready.high,
             e.scheduler.ready.urgent, e.scheduler.deps, e.scheduler.fairshare
    ensures e.Valid() && e.base == old(e.base)
    ensures e.jobs == Alone(JobState.Running) && e.running == [Occupant(now)]
    ensures e.inventory.slots == [WorkerSlot(ONE, ONE)] && e.held == [] && e.terminal == []
  {
    var slot, kills := e.OnWorkerJoined("w", ONE, [], now);
    FirstAdmitted();
    var id, accepted := e.OnSubmit(SMALL_JOB, now);
    assert e.inventory.slots == [WorkerSlot(ONE, ZERO)] && e.running == [] && e.held == [];
    StartFirst(e, now);
  }

  method StartFirst(e: Engine, now: u64)
    requires e.Valid() && e.jobs == Alone(JobState.Ready) && e.terminal == [] && Willing(e.config)
    requires e.inventory.slots == [WorkerSlot(ONE, ZERO)] && e.running == [] && e.held == []
    modifies e, e.inventory, e.scheduler, e.scheduler.ready.low, e.scheduler.ready.normal, e.scheduler.ready.high,
             e.scheduler.ready.urgent, e.scheduler.deps, e.scheduler.fairshare
    ensures e.Valid() && e.base == old(e.base)
    ensures e.jobs == Alone(JobState.Running) && e.running == [Occupant(now)]
    ensures e.inventory.slots == [WorkerSlot(ONE, ONE)] && e.held == [] && e.terminal == []
  {
    ghost var l, c := e.Life(), Clock(e.reconcileUntil, now, e.retain, e.window);
    GoodQueue(l, e.config.maxPreemptions);
    var plan, evictions := e.Tick(now);
    FirstTick(e.scheduler.fairshare.table, plan, l.books, now, e.config, e.inventory.slots, e.running, evictions);
    NothingToSettle(Alone(JobState.Running), l.log + PlacingRecords(plan, evictions, now), c, e.jobs, e.log,
                    e.terminal, e.held, e.reconcileUntil);
  }

  /** Its rival is submitted, and the tick has the first job evicted. */
  method Contest(e: Engine, ghost began: u64, now: u64)
    requires e.Valid() && e.jobs == Alone(JobState.Running) && e.running == [Occupant(began)] && Willing(e.config)
    requires e.inventory.slots == [WorkerSlot(ONE, ONE)] && e.held == [] && e.terminal == []
    modifies e, e.inventory, e.scheduler, e.scheduler.ready.low, e.scheduler.ready.normal, e.scheduler.ready.high,
             e.scheduler.ready.urgent, e.scheduler.deps, e.scheduler.fairshare
    ensures e.Valid() && e.base == old(e.base)
    ensures e.jobs == Contested(SMALL_JOB.(state := JobState.Preempted)) && e.running == [Occupant(began)]
  {
    RivalAdmitted();
    var id, accepted := e.OnSubmit(RIVAL, now);
    EvictFirst(e, began, now);
  }

  method EvictFirst(e: Engine, ghost began: u64, now: u64)
    requires e.Valid() && e.jobs == Contested(SMALL_JOB.(state := JobState.Running)) && Willing(e.config)
    requires e.inventory.slots == [WorkerSlot(ONE, ONE)] && e.running == [Occupant(began)] && e.held == []
      && e.terminal == []
    modifies e, e.inventory, e.scheduler, e.scheduler.ready.low, e.scheduler.ready.normal, e.scheduler.ready.high,
             e.scheduler.ready.urgent, e.scheduler.deps, e.scheduler.fairshare
    ensures e.Valid() && e.base == old(e.base)
    ensures e.jobs == Contested(SMALL_JOB.(state := JobState.Preempted)) && e.running == [Occupant(began)]
  {
    ghost var l, c := e.Life(), Clock(e.reconcileUntil, now, e.retain, e.window);
    GoodQueue(l, e.config.maxPreemptions);
    var plan, evictions := e.Tick(now);
    SecondTick(e.scheduler.fairshare.table, plan, l.books, began, now, e.config, e.inventory.slots, e.running,
               evictions);
    NothingToSettle(Contested(SMALL_JOB.(state := JobState.Preempted)),
                    l.log + PlacingRecords(plan, evictions, now), c, e.jobs, e.log, e.terminal, e.held,
                    e.reconcileUntil);
  }
}
