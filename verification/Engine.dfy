/** The engine: commands and ticks applied to the arena, the scheduler, the bindings and the log. */
module Engines {
  import opened Domain
  import Arenas
  import opened Eligibility
  import opened ReadySets
  import opened FairShares
  import opened Slots
  import opened Reservation
  import opened Placement
  import opened Priority
  import opened Lifecycle
  import opened Admission
  import opened Transitions
  import opened Cycles
  import opened Replay
  import opened Bindings
  import opened Lives
  import opened Schedulers
  import opened Preemption

  // ---- how each transition shifts cpu ----

  lemma ShiftRequeue(jobs: Jobs, id: JobId)
    requires Small(jobs) && OnCpu(jobs, id)
    ensures Shifts(jobs, AfterMove(jobs, id, JobState.Ready), {id}, {})
  {}

  lemma ShiftCompletion(jobs: Jobs, done: set<JobId>, id: JobId)
    requires Small(jobs) && OnCpu(jobs, id)
    ensures Shifts(jobs, AfterCompletion(jobs, done, id), {id}, {})
  {}

  lemma ShiftTermination(jobs: Jobs, id: JobId, state: JobState)
    requires Small(jobs) && Open(jobs, id) && state.IsTerminal()
    requires forall x :: x in Lifecycle.Doomed(jobs, id) ==> In(jobs, x, JobState.Blocked)
    ensures Shifts(jobs, AfterTermination(jobs, id, state), {id}, {})
  {}

  lemma ShiftDispatch(jobs: Jobs, ids: seq<JobId>)
    requires Small(jobs) && AllReady(jobs, ids)
    ensures Shifts(jobs, AfterDispatch(jobs, ids), {}, Elements(ids))
  {}

  // ---- bindings, sealed ----

  ghost predicate Bound(jobs: Jobs, b: Binding) { forall k: int :: Unsealed(k) ==> BindOk(jobs, b) }

  lemma BoundIsOk(jobs: Jobs, b: Binding)
    ensures Bound(jobs, b) <==> BindOk(jobs, b)
  {
    assert Unsealed(0);
  }

  lemma BoundCovers(jobs: Jobs, b: Binding, id: JobId)
    requires Bound(jobs, b)
    ensures Located(b, id) ==> OnCpu(jobs, id)
    ensures forall i :: 0 <= i < |b.running| ==> b.running[i].slot < |b.slots|
  {
    BoundIsOk(jobs, b);
  }

  /** `id` left its worker or the reconcile list, or was on neither. */
  ghost predicate Unbinds(b: Binding, id: JobId, b': Binding) {
    || (exists pos: nat :: Releases(b, pos, b') && b.running[pos].job == id)
    || (id !in RunIds(b.running) && exists pos: nat :: Unholds(b, pos, b') && b.held[pos] == id)
  }

  lemma UnbindsOne(b: Binding, id: JobId, b': Binding)
    requires NoDuplicates(RunIds(b.running)) && NoDuplicates(b.held)
      && (forall x :: x in b.held ==> x !in RunIds(b.running))
    requires Unbinds(b, id, b')
    ensures Located(b, id) && forall x :: Located(b', x) <==> Located(b, x) && x != id
  {
    if pos: nat :| Releases(b, pos, b') && b.running[pos].job == id {
      RunIdsSwapRemove(b.running, pos);
      SwapRemoveMembers(RunIds(b.running), pos);
      assert RunIds(b.running)[pos] == id;
    } else {
      var pos: nat :| Unholds(b, pos, b') && b.held[pos] == id;
      SwapRemoveMembers(b.held, pos);
    }
  }

  lemma UnbindStaysBound(jobs: Jobs, jobs': Jobs, b: Binding, id: JobId, b': Binding)
    requires Bound(jobs, b) && Unbinds(b, id, b') && Spares(jobs, jobs', {id})
    ensures Bound(jobs', b')
    ensures OnCpu(jobs, id) && Located(b, id) && forall x :: Located(b', x) <==> Located(b, x) && x != id
  {
    BoundIsOk(jobs, b);
    UnbindsOne(b, id, b');
    if pos: nat :| Releases(b, pos, b') && b.running[pos].job == id {
      ReleaseKeeps(jobs, jobs', b, pos, b');
    } else {
      var pos: nat :| Unholds(b, pos, b') && b.held[pos] == id;
      UnholdKeeps(jobs, jobs', b, pos, b');
    }
    BoundIsOk(jobs', b');
  }

  /** A job that loses its cpu and its worker together leaves no stray. */
  lemma UnbindKeeps(jobs: Jobs, jobs': Jobs, b: Binding, id: JobId, b': Binding)
    requires Bound(jobs, b) && Unbinds(b, id, b') && Shifts(jobs, jobs', {id}, {})
    ensures Bound(jobs', b') && Strays(jobs', b') == Strays(jobs, b)
  {
    UnbindStaysBound(jobs, jobs', b, id, b');
    assert forall x :: x in Strays(jobs, b) <==> OnCpu(jobs, x) && !Located(b, x);
    assert forall x :: x in Strays(jobs', b') <==> OnCpu(jobs', x) && !Located(b', x);
  }

  /** A job taken off its worker while it still holds cpu becomes a stray. */
  lemma UnbindLeaks(jobs: Jobs, b: Binding, id: JobId, b': Binding)
    requires Bound(jobs, b) && Unbinds(b, id, b')
    ensures Bound(jobs, b') && Strays(jobs, b') == Strays(jobs, b) + iset{id}
  {
    UnbindStaysBound(jobs, jobs, b, id, b');
    assert forall x :: x in Strays(jobs, b) <==> OnCpu(jobs, x) && !Located(b, x);
    assert forall x :: x in Strays(jobs, b') <==> OnCpu(jobs, x) && !Located(b', x);
  }

  lemma StayBound(jobs: Jobs, jobs': Jobs, b: Binding)
    requires Bound(jobs, b) && Shifts(jobs, jobs', {}, {})
    ensures Bound(jobs', b) && Strays(jobs', b) == Strays(jobs, b)
  {
    BoundIsOk(jobs, b);
    StayKeeps(jobs, jobs', b, {});
    BoundIsOk(jobs', b);
  }

  /** Only a stray can lose its cpu without leaving a worker. */
  lemma StrayEnds(jobs: Jobs, jobs': Jobs, b: Binding, id: JobId)
    requires Bound(jobs, b) && !Located(b, id) && Shifts(jobs, jobs', {id}, {})
    ensures Bound(jobs', b) && Strays(jobs', b) == Strays(jobs, b) - iset{id}
  {
    BoundIsOk(jobs, b);
    StayKeeps(jobs, jobs', b, {id});
    BoundIsOk(jobs', b);
  }

  lemma GoodDoomed(l: Life, max: nat, id: JobId)
    requires Good(l, max) && Small(l.jobs)
    ensures forall x :: x in Lifecycle.Doomed(l.jobs, id) ==> In(l.jobs, x, JobState.Blocked)
  {
    GoodIsWhole(l, max);
    DoomedAreBlocked(l.jobs, l.books.done, id);
  }

  function Noted(terminal: seq<(u64, JobId)>): set<JobId> { set i | 0 <= i < |terminal| :: terminal[i].1 }

  lemma NotedOneMore(terminal: seq<(u64, JobId)>, at: u64, id: JobId)
    ensures Noted(terminal + [(at, id)]) == Noted(terminal) + {id}
  {
    var more := terminal + [(at, id)];
    forall x ensures x in Noted(more) <==> x in Noted(terminal) || x == id {
      if x in Noted(terminal) {
        var i :| 0 <= i < |terminal| && terminal[i].1 == x;
        assert more[i].1 == x;
      }
      assert more[|terminal|].1 == id;
    }
  }

  lemma EmptyGood(max: nat)
    ensures Good(Lives.Life(Arenas.View([], None), Books({}, NOTHING, Tables([], [], []), []), BLANK, [], {}), max)
  {
    var l := Lives.Life(Arenas.View([], None), Books({}, NOTHING, Tables([], [], []), []), BLANK, [], {});
    EmptyInv();
    GoodIsWhole(l, max);
  }

  lemma EmptyBound()
    ensures Bound(Arenas.View([], None), Bindings.Binding([], [], [], []))
    ensures forall x :: x !in Strays(Arenas.View([], None), Bindings.Binding([], [], [], []))
  {
    BoundIsOk(Arenas.View([], None), Bindings.Binding([], [], [], []));
  }

  lemma EmptyInv()
    ensures Inv(Arenas.View([], None), Books({}, NOTHING, Tables([], [], []), []))
  {
    var jobs: Jobs := Arenas.View([], None);
    assert Arenas.FreeListExact(jobs.slots, jobs.freeHead, []);
    forall c: PriorityClass, x ensures !Queued(NOTHING, c, x) {}
  }

  class Engine {
    const config: Config
    const retain: u64
    const scheduler: Scheduler
    const inventory: SlotInventory
    var jobs: Jobs
    var running: seq<RunningJob>
    var held: seq<JobId>
    var names: seq<Option<string>>
    const window: u64
    /** When unclaimed jobs are requeued; armed on the first tick that finds any held. */
    var reconcileUntil: Option<u64>
    /** When each finished job finished, oldest first. */
    var terminal: seq<(u64, JobId)>

    /** Where the log starts: the empty arena, or what a snapshot restored. */
    ghost var base: Durable
    /** Every record handed to the journal since, in order. */
    ghost var log: seq<Record>

    ghost function Binding(): Binding
      reads this, inventory
    {
      Bindings.Binding(inventory.slots, names, running, held)
    }

    ghost function Life(): Life
      reads this, inventory, scheduler, scheduler.ready.low, scheduler.ready.normal, scheduler.ready.high,
            scheduler.ready.urgent, scheduler.deps, scheduler.fairshare
    {
      Lives.Life(jobs, scheduler.Books(), base, log, Noted(terminal))
    }

    /** Jobs that hold cpu on no worker the engine knows of. */
    ghost function Strays(): iset<JobId>
      reads this, inventory
    {
      Bindings.Strays(jobs, Binding())
    }

    /** The invariant of every run: the scheduler's, the log's and the workers'. */
    ghost predicate Steady()
      reads this, inventory, scheduler, scheduler.ready.low, scheduler.ready.normal, scheduler.ready.high,
            scheduler.ready.urgent, scheduler.deps, scheduler.fairshare
    {
      scheduler.Parts() && Good(Life(), config.maxPreemptions) && Bound(jobs, Binding())
    }

    /** Steady, and the engine knows where every job on cpu is. */
    ghost predicate Valid()
      reads this, inventory, scheduler, scheduler.ready.low, scheduler.ready.normal, scheduler.ready.high,
            scheduler.ready.urgent, scheduler.deps, scheduler.fairshare
    {
      Steady() && forall x :: x !in Strays()
    }

    constructor Empty(config: Config, retain: u64, window: u64)
      ensures Valid() && fresh(scheduler) && fresh(inventory) && fresh(scheduler.deps) && fresh(scheduler.fairshare)
      ensures fresh(scheduler.ready.low) && fresh(scheduler.ready.normal) && fresh(scheduler.ready.high)
        && fresh(scheduler.ready.urgent)
      ensures this.config == config && this.retain == retain && this.window == window
      ensures Life() == Lives.Life(Arenas.View([], None), Books({}, NOTHING, Tables([], [], []), []), BLANK, [], {})
      ensures Binding() == Bindings.Binding([], [], [], []) && terminal == []
    {
      var s := new Scheduler.Empty();
      var i := new SlotInventory.Empty();
      this.config, this.retain, this.window, reconcileUntil, scheduler, inventory := config, retain, window, None, s, i;
      jobs, running, held, names, terminal, base, log := Arenas.View([], None), [], [], [], [], BLANK, [];
      new;
      EmptyGood(config.maxPreemptions);
      EmptyBound();
      assert Life() == Lives.Life(Arenas.View([], None), Books({}, NOTHING, Tables([], [], []), []), BLANK, [], {});
    }

    /** `id` leaves the running set and its slot gets back what it held. */
    method Release(id: JobId) returns (slot: Option<SlotIndex>)
      requires forall i :: 0 <= i < |running| ==> running[i].slot < |inventory.slots|
      modifies this`running, inventory
      ensures slot.Some? <==> id in RunIds(old(running))
      ensures slot == None ==> Binding() == old(Binding())
      ensures slot.Some? ==> Unbinds(old(Binding()), id, Binding())
    {
      var pos: nat := 0;
      while pos < |running| && running[pos].job != id
        invariant pos <= |running| && forall i :: 0 <= i < pos ==> running[i].job != id
      {
        pos := pos + 1;
      }
      if pos == |running| { return None; }
      assert RunIds(running)[pos] == id;
      var r := running[pos];
      running := SwapRemove(running, pos);
      var released := inventory.Release(r.slot, r.resources);
      slot := Some(r.slot);
      assert Releases(old(Binding()), pos, Binding());
    }

    /** `id` is no longer waited for. */
    method Unhold(id: JobId) returns (present: bool)
      modifies this`held
      ensures present <==> id in old(held)
      ensures !present ==> held == old(held)
      ensures present ==> exists pos: nat :: Unholds(old(Binding()), pos, Binding()) && old(held)[pos] == id
    {
      var pos: nat := 0;
      while pos < |held| && held[pos] != id
        invariant pos <= |held| && forall i :: 0 <= i < pos ==> held[i] != id
      {
        pos := pos + 1;
      }
      if pos == |held| { return false; }
      held := SwapRemove(held, pos);
      assert Unholds(old(Binding()), pos, Binding());
      return true;
    }

    /** Takes `id` off its worker, or off the reconcile list. */
    method Unbind(id: JobId) returns (bound: bool)
      requires forall i :: 0 <= i < |running| ==> running[i].slot < |inventory.slots|
      modifies this`running, this`held, inventory
      ensures bound <==> id in RunIds(old(running)) || id in old(held)
      ensures bound ==> Unbinds(old(Binding()), id, Binding())
      ensures !bound ==> Binding() == old(Binding())
    {
      var slot := Release(id);
      if slot.Some? { return true; }
      bound := Unhold(id);
    }

    // ---- jobs finishing ----

    method Complete(id: JobId, now: u64) returns (ghost promoted: seq<JobId>)
      requires scheduler.Parts() && Small(jobs) && Callable(jobs, scheduler.Books()) && OnCpu(jobs, id)
      modifies this`jobs, this`terminal, this`log, scheduler, scheduler.ready.low, scheduler.ready.normal,
               scheduler.ready.high, scheduler.ready.urgent, scheduler.deps, scheduler.fairshare
      ensures scheduler.Parts()
      ensures var step := CompletionStep(old(jobs), old(scheduler.Books()), id, jobs, scheduler.Books(), promoted); step
      ensures log == old(log) + [Record.Completed(id, now)] && terminal == old(terminal) + [(now, id)]
    {
      log, terminal := log + [Record.Completed(id, now)], terminal + [(now, id)];
      var error, after, up := scheduler.OnCompleted(id, jobs, now, config);
      promoted := up;
      jobs := after;
    }

    /** Completion reported: counts only for a job whose worker is known, which then leaves it. */
    method OnCompletedReport(id: JobId, now: u64)
      requires Steady()
      modifies this, inventory, scheduler, scheduler.ready.low, scheduler.ready.normal, scheduler.ready.high,
               scheduler.ready.urgent, scheduler.deps, scheduler.fairshare
      ensures base == old(base) && old(log) <= log
      ensures Steady() && Strays() == old(Strays())
      ensures !Located(old(Binding()), id) ==> Life() == old(Life()) && Binding() == old(Binding())
      ensures Located(old(Binding()), id) ==>
                && OnCpu(old(jobs), id) && Small(old(jobs))
                && jobs == AfterCompletion(old(jobs), old(scheduler.done), id)
                && scheduler.done == old(scheduler.done) + {id}
                && log == old(log) + [Record.Completed(id, now)]
                && Unbinds(old(Binding()), id, Binding())
    {
      ghost var l, b := Life(), Binding();
      BoundCovers(jobs, b, id);
      GoodEnables(l, config.maxPreemptions);
      var bound := Unbind(id);
      assert Life() == l;
      if !bound { return; }
      var promoted := Complete(id, now);
      NotedOneMore(old(terminal), now, id);
      CompleteKeeps(l, b, id, now, Life(), Binding(), promoted, config.maxPreemptions);
    }

    method Fail(id: JobId, now: u64) returns (cascade: seq<JobId>)
      requires scheduler.Parts() && Small(jobs) && Callable(jobs, scheduler.Books()) && OnCpu(jobs, id)
      modifies this`jobs, this`terminal, this`log, scheduler, scheduler.ready.low, scheduler.ready.normal,
               scheduler.ready.high, scheduler.ready.urgent, scheduler.deps, scheduler.fairshare
      ensures scheduler.Parts()
      ensures var step := TerminationStep(old(jobs), old(scheduler.Books()), id, JobState.Failed, jobs,
                scheduler.Books(), cascade); step
      ensures log == old(log) + [Record.Failed(id, now)] && terminal == NoteAll(old(terminal), now, [id] + cascade)
    {
      log := log + [Record.Failed(id, now)];
      var error, after;
      error, after, cascade := scheduler.OnFailed(id, jobs, now, config);
      jobs, terminal := after, NoteAll(terminal, now, [id] + cascade);
    }

    /** `id`, already off its worker, fails, and with it what waits for it. */
    method ConfirmFailure(id: JobId, now: u64, ghost b: Binding)
      requires scheduler.Parts() && Good(Life(), config.maxPreemptions) && Bound(jobs, b) && Unbinds(b, id, Binding())
      requires Small(jobs) && Callable(jobs, scheduler.Books()) && OnCpu(jobs, id) && Located(b, id)
      modifies this, scheduler, scheduler.ready.low, scheduler.ready.normal, scheduler.ready.high,
               scheduler.ready.urgent, scheduler.deps, scheduler.fairshare
      ensures Steady() && Binding() == old(Binding()) && Strays() == Bindings.Strays(old(jobs), b) && base == old(base)
      ensures jobs == AfterTermination(old(jobs), id, JobState.Failed) && log == old(log) + [Record.Failed(id, now)]
    {
      ghost var l := Life();
      var cascade := Fail(id, now);
      NotedAll(old(terminal), now, [id] + cascade);
      EndKeeps(l, b, id, JobState.Failed, Record.Failed(id, now), Life(), Binding(), cascade, config.maxPreemptions);
    }

    /** Failure reported: the job and everything that waits for it end. */
    method OnFailedReport(id: JobId, now: u64)
      requires Steady()
      modifies this, inventory, scheduler, scheduler.ready.low, scheduler.ready.normal, scheduler.ready.high,
               scheduler.ready.urgent, scheduler.deps, scheduler.fairshare
      ensures base == old(base) && old(log) <= log
      ensures Steady() && Strays() == old(Strays())
      ensures !Located(old(Binding()), id) ==> Life() == old(Life()) && Binding() == old(Binding())
      ensures Located(old(Binding()), id) ==>
                && OnCpu(old(jobs), id) && Small(old(jobs)) && jobs == AfterTermination(old(jobs), id, JobState.Failed)
                && log == old(log) + [Record.Failed(id, now)]
                && Unbinds(old(Binding()), id, Binding())
    {
      ghost var l, b := Life(), Binding();
      BoundCovers(jobs, b, id);
      GoodEnables(l, config.maxPreemptions);
      var bound := Unbind(id);
      assert Life() == l;
      if !bound { return; }
      ConfirmFailure(id, now, b);
    }

    method CancelJob(id: JobId, now: u64) returns (cascade: seq<JobId>)
      requires scheduler.Parts() && Small(jobs) && Callable(jobs, scheduler.Books()) && Open(jobs, id)
      modifies this`jobs, this`terminal, this`log, scheduler, scheduler.ready.low, scheduler.ready.normal,
               scheduler.ready.high, scheduler.ready.urgent, scheduler.deps, scheduler.fairshare
      ensures scheduler.Parts()
      ensures TerminationStep(old(jobs), old(scheduler.Books()), id, JobState.Cancelled, jobs, scheduler.Books(),
                              cascade)
      ensures log == old(log) + [Record.Cancelled(id, now)] && terminal == NoteAll(old(terminal), now, [id] + cascade)
    {
      log := log + [Record.Cancelled(id, now)];
      var error, after;
      error, after, cascade := scheduler.Cancel(id, jobs, now, config);
      jobs, terminal := after, NoteAll(terminal, now, [id] + cascade);
    }

    /** Cancels `id` and its dependents; accepted exactly for jobs that are not over. */
    method OnCancel(id: JobId, now: u64) returns (accepted: bool)
      requires Steady()
      modifies this, inventory, scheduler, scheduler.ready.low, scheduler.ready.normal, scheduler.ready.high,
               scheduler.ready.urgent, scheduler.deps, scheduler.fairshare
      ensures base == old(base) && old(log) <= log
      ensures Steady() && Strays() == old(Strays()) - iset{id}
      ensures accepted <==> Open(old(jobs), id)
      ensures !accepted ==> Life() == old(Life()) && Binding() == old(Binding())
      ensures accepted ==>
                && Small(old(jobs)) && jobs == AfterTermination(old(jobs), id, JobState.Cancelled)
                && log == old(log) + [Record.Cancelled(id, now)]
                && (if Located(old(Binding()), id) then Unbinds(old(Binding()), id, Binding())
                    else Binding() == old(Binding()))
    {
      ghost var l, b := Life(), Binding();
      BoundCovers(jobs, b, id);
      GoodEnables(l, config.maxPreemptions);
      var bound := Unbind(id);
      assert Life() == l;
      accepted := Open(jobs, id);
      if !accepted { return; }
      var cascade := CancelJob(id, now);
      NotedAll(old(terminal), now, [id] + cascade);
      EndKeeps(l, b, id, JobState.Cancelled, Record.Cancelled(id, now), Life(), Binding(), cascade,
               config.maxPreemptions);
    }

    // ---- jobs arriving ----

    method Place(job: Job, c: Classified, now: u64)
      requires scheduler.Parts() && Small(jobs) && Callable(jobs, scheduler.Books()) && CanAdmit(jobs)
        && job.state.Submitted?
      requires job.account < MAX_ACCOUNTS && c.Verdict? && ClassifiesAs(jobs, Arenas.NextId(jobs), job.deps, c)
      modifies this`jobs, scheduler, scheduler.ready.low, scheduler.ready.normal, scheduler.ready.high,
               scheduler.ready.urgent, scheduler.deps, scheduler.fairshare
      ensures scheduler.Parts() && jobs == AfterSubmission(old(jobs), job, c.readiness)
      ensures SubmissionStep(Arenas.Insert(old(jobs), job), old(scheduler.Books()), Arenas.NextId(old(jobs)),
                             c.readiness, scheduler.Books())
    {
      var id, before := Arenas.NextId(jobs), Arenas.Insert(jobs, job);
      AdmitCallable(jobs, job, scheduler.Books());
      var c', error, after := scheduler.Submit(id, before, now, config);
      SameVerdict(jobs, job, c, c');
      InsertThenMove(jobs, job, StateFor(c.readiness));
      jobs := after;
    }

    method Admit(job: Job, now: u64) returns (c: Classified, id: JobId, accepted: bool)
      requires scheduler.Parts() && Small(jobs) && Callable(jobs, scheduler.Books()) && CanAdmit(jobs)
        && job.state.Submitted?
      modifies this`jobs, this`terminal, this`log, scheduler, scheduler.ready.low, scheduler.ready.normal,
               scheduler.ready.high, scheduler.ready.urgent, scheduler.deps, scheduler.fairshare
      ensures scheduler.Parts() && id == Arenas.NextId(old(jobs))
      ensures accepted <==> job.account < MAX_ACCOUNTS && Classification(old(jobs), id, job.deps).Verdict?
      ensures !accepted ==> Life() == old(Life()) && terminal == old(terminal)
      ensures accepted ==>
                && c.Verdict? && ClassifiesAs(old(jobs), id, job.deps, c)
                && jobs == AfterSubmission(old(jobs), job, c.readiness)
                && SubmissionStep(Arenas.Insert(old(jobs), job), old(scheduler.Books()), id, c.readiness,
                                  scheduler.Books())
                && log == old(log) + [Record.Submitted(id, job)]
                && terminal == if c.readiness.Doomed? then old(terminal) + [(now, id)] else old(terminal)
    {
      id := Arenas.NextId(jobs);
      var refused;
      c, refused := scheduler.CheckSubmit(id, job, jobs);
      accepted := refused == None;
      if job.account < MAX_ACCOUNTS { ClassificationIsUnique(jobs, id, job.deps, c); }
      if !accepted { return; }
      log := log + [Record.Submitted(id, job)];
      if c.readiness.Doomed? { terminal := terminal + [(now, id)]; }
      Place(job, c, now);
    }

    /** A new job enters the arena and the log together, or neither; only a bad account or dependency keeps it out. */
    method OnSubmit(job: Job, now: u64) returns (id: JobId, accepted: bool)
      requires Steady() && Roomy(jobs)
      requires job.state.Submitted? && job.preemptions == 0 && job.request != ZERO
      modifies this, inventory, scheduler, scheduler.ready.low, scheduler.ready.normal, scheduler.ready.high,
               scheduler.ready.urgent, scheduler.deps, scheduler.fairshare
      ensures base == old(base) && old(log) <= log
      ensures Steady() && Binding() == old(Binding()) && Strays() == old(Strays())
      ensures CanAdmit(old(jobs)) && id == Arenas.NextId(old(jobs))
      ensures accepted <==> job.account < MAX_ACCOUNTS && Classification(old(jobs), id, job.deps).Verdict?
      ensures !accepted ==> Life() == old(Life())
      ensures accepted ==>
                && jobs == AfterSubmission(old(jobs), job, Classification(old(jobs), id, job.deps).readiness)
                && log == old(log) + [Record.Submitted(id, job)]
      ensures terminal == if accepted && Classification(old(jobs), id, job.deps).readiness.Doomed?
                then old(terminal) + [(now, id)] else old(terminal)
    {
      ghost var l, b := Life(), Binding();
      GoodAdmits(l, config.maxPreemptions);
      var c;
      c, id, accepted := Admit(job, now);
      assert Binding() == b;
      if !accepted { return; }
      ClassificationIsUnique(l.jobs, id, job.deps, c);
      if c.readiness.Doomed? { NotedOneMore(old(terminal), now, id); }
      SubmitKeeps(l, b, job, c.readiness, Life(), config.maxPreemptions);
    }

    // ---- evictions ----

    method RequeueJob(id: JobId, now: u64)
      requires scheduler.Parts() && Small(jobs) && Callable(jobs, scheduler.Books()) && OnCpu(jobs, id)
      modifies this`jobs, this`terminal, this`log, scheduler, scheduler.ready.low, scheduler.ready.normal,
               scheduler.ready.high, scheduler.ready.urgent, scheduler.deps, scheduler.fairshare
      ensures scheduler.Parts() && terminal == old(terminal)
      ensures jobs == AfterMove(old(jobs), id, JobState.Ready) && scheduler.done == old(scheduler.done)
      ensures var step := MoveStep(old(jobs), old(scheduler.Books()), id, JobState.Ready, scheduler.Books()); step
      ensures log == old(log) + [Requeued(id, now)]
    {
      log := log + [Requeued(id, now)];
      var error, after := scheduler.Requeue(id, jobs, now, config);
      jobs := after;
    }

    method CountAndRequeue(id: JobId, now: u64)
      requires scheduler.Parts() && Small(jobs) && Callable(jobs, scheduler.Books()) && In(jobs, id, JobState.Preempted)
      modifies this`jobs, this`terminal, this`log, scheduler, scheduler.ready.low, scheduler.ready.normal,
               scheduler.ready.high, scheduler.ready.urgent, scheduler.deps, scheduler.fairshare
      ensures scheduler.Parts() && terminal == old(terminal)
      ensures jobs == AfterMove(Bump(old(jobs), id), id, JobState.Ready)
      ensures var step := MoveStep(old(jobs), old(scheduler.Books()), id, JobState.Ready, scheduler.Books()); step
      ensures log == old(log) + [Requeued(id, now)]
    {
      log := log + [Requeued(id, now)];
      var counted := Bump(jobs, id);
      BumpIsTwin(jobs, id);
      TwinCallable(jobs, counted, scheduler.Books());
      ghost var books := scheduler.Books();
      var error, after := scheduler.Requeue(id, counted, now, config);
      TwinMove(jobs, counted, books, id, JobState.Ready, scheduler.Books());
      jobs := after;
    }

    /** The evicted `id`, already off its worker, counts one more eviction and goes back to its queue. */
    method ConfirmEviction(id: JobId, now: u64, ghost b: Binding)
      requires scheduler.Parts() && Good(Life(), config.maxPreemptions) && Bound(jobs, b) && Unbinds(b, id, Binding())
      requires Small(jobs) && Callable(jobs, scheduler.Books()) && In(jobs, id, JobState.Preempted)
      modifies this, scheduler, scheduler.ready.low, scheduler.ready.normal, scheduler.ready.high,
               scheduler.ready.urgent, scheduler.deps, scheduler.fairshare
      ensures base == old(base) && old(log) <= log
      ensures Steady() && Binding() == old(Binding()) && Strays() == Bindings.Strays(old(jobs), b)
      ensures jobs == AfterMove(Bump(old(jobs), id), id, JobState.Ready) && log == old(log) + [Requeued(id, now)]
    {
      ghost var l := Life();
      CountAndRequeue(id, now);
      EvictKeeps(l, b, id, now, Life(), Binding(), config.maxPreemptions);
    }

    /** Eviction confirmed. A confirmation for a job nobody was evicting frees its slot but leaves it Running: it has
        become a stray. */
    method OnPreemptedReport(id: JobId, now: u64)
      requires Steady()
      modifies this, inventory, scheduler, scheduler.ready.low, scheduler.ready.normal, scheduler.ready.high,
               scheduler.ready.urgent, scheduler.deps, scheduler.fairshare
      ensures base == old(base) && old(log) <= log
      ensures Steady()
      ensures Strays() == if Located(old(Binding()), id) && In(old(jobs), id, JobState.Running)
                then old(Strays()) + iset{id} else old(Strays())
      ensures !Located(old(Binding()), id) ==> Life() == old(Life()) && Binding() == old(Binding())
      ensures Located(old(Binding()), id) ==>
                && OnCpu(old(jobs), id) && Unbinds(old(Binding()), id, Binding())
                && (In(old(jobs), id, JobState.Running) ==> Life() == old(Life()))
                && (In(old(jobs), id, JobState.Preempted) ==>
                    && Small(old(jobs)) && jobs == AfterMove(Bump(old(jobs), id), id, JobState.Ready)
                    && log == old(log) + [Requeued(id, now)])
    {
      ghost var l, b := Life(), Binding();
      BoundCovers(jobs, b, id);
      GoodEnables(l, config.maxPreemptions);
      var bound := Unbind(id);
      assert Life() == l;
      if !bound { return; }
      if !In(jobs, id, JobState.Preempted) {
        UnbindLeaks(jobs, b, id, Binding());
        return;
      }
      ConfirmEviction(id, now, b);
    }

    // ---- workers ----

    /** Requeues and logs each of `ids`, all of which hold cpu. */
    method RequeueEach(ids: seq<JobId>, now: u64, ghost max: nat)
      requires scheduler.Parts() && Good(Life(), max) && Small(jobs) && AllOnCpu(jobs, ids)
      modifies this`jobs, this`terminal, this`log, scheduler, scheduler.ready.low, scheduler.ready.normal,
               scheduler.ready.high, scheduler.ready.urgent, scheduler.deps, scheduler.fairshare
      ensures scheduler.Parts() && Good(Life(), max) && terminal == old(terminal)
        && scheduler.done == old(scheduler.done)
      ensures jobs == AfterRequeue(old(jobs), ids)
      ensures log == old(log) + RequeueRecords(ids, now)
    {
      ghost var start, records := jobs, log;
      RequeueNone(start);
      for k := 0 to |ids|
        invariant scheduler.Parts() && Good(Life(), max) && terminal == old(terminal)
          && scheduler.done == old(scheduler.done)
        invariant jobs == AfterRequeue(start, ids[..k])
        invariant log == records + RequeueRecords(ids[..k], now)
      {
        RequeueOneMore(start, ids, k, now);
        ghost var l := Life();
        GoodEnables(l, max);
        RequeueJob(ids[k], now);
        RequeueLives(l, ids[k], now, scheduler.Books(), max);
        assert Life() == Lives.Life(AfterMove(l.jobs, ids[k], JobState.Ready), scheduler.Books(), l.base,
                                    l.log + [Requeued(ids[k], now)], l.noted);
      }
      assert ids[..|ids|] == ids;
    }

    /** Drops the entries of one slot from the running set. */
    method DropEntries(slot: SlotIndex) returns (evicted: seq<JobId>)
      modifies this`running
      ensures running == OthersThan(old(running), slot) && evicted == JobsOn(old(running), slot)
    {
      var kept: seq<RunningJob> := [];
      evicted := [];
      for k := 0 to |running|
        invariant running == old(running)
        invariant kept == OthersThan(running[..k], slot) && evicted == JobsOn(running[..k], slot)
      {
        assert running[..k + 1][..k] == running[..k];
        if running[k].slot != slot { kept := kept + [running[k]]; } else { evicted := evicted + [running[k].job]; }
      }
      assert running[..|running|] == running;
      running := kept;
    }

    method Detach(slot: SlotIndex) returns (evicted: seq<JobId>)
      modifies this`running, this`names, inventory
      ensures Detaches(old(Binding()), slot, Binding()) && evicted == JobsOn(old(running), slot)
    {
      evicted := DropEntries(slot);
      inventory.ClearAllocation(slot);
      inventory.SetCapacity(slot, ZERO);
      if slot < |names| { names := names[slot := None]; }
    }

    /** A worker is gone: its jobs are requeued, its slot zeroed and detached. While the daemon is leaving
        they are left as they were instead, and all of them become strays. */
    method EvictSlot(slot: SlotIndex, quiescing: bool, now: u64)
      requires Steady()
      modifies this, inventory, scheduler, scheduler.ready.low, scheduler.ready.normal, scheduler.ready.high,
               scheduler.ready.urgent, scheduler.deps, scheduler.fairshare
      ensures base == old(base) && old(log) <= log
      ensures Steady()
      ensures Strays() == if quiescing then old(Strays()) + Abandoned(old(running), slot) else old(Strays())
      ensures Detaches(old(Binding()), slot, Binding())
      ensures Small(old(jobs))
      ensures quiescing ==> Life() == old(Life())
      ensures !quiescing ==>
                && jobs == AfterRequeue(old(jobs), JobsOn(old(running), slot))
                && log == old(log) + RequeueRecords(JobsOn(old(running), slot), now)
    {
      ghost var l, b := Life(), Binding();
      GoodEnables(l, config.maxPreemptions);
      EvictedOnCpu(jobs, b, slot);
      var evicted := Detach(slot);
      ghost var b' := Binding();
      assert Life() == l;
      if quiescing {
        QuietDetach(l.jobs, b, slot, b');
      } else {
        RequeueEach(evicted, now, config.maxPreemptions);
        DetachBound(l.jobs, b, slot, b');
        assert Binding() == b';
      }
    }

    /** The slot's capacity goes to zero; what it already holds is untouched. */
    method OnWorkerDraining(slot: SlotIndex)
      requires Steady()
      modifies inventory
      ensures Steady() && Life() == old(Life()) && Strays() == old(Strays())
      ensures Binding() == old(Binding()).(slots := if slot < |old(inventory.slots)|
                then old(inventory.slots)[slot := old(inventory.slots)[slot].(capacity := ZERO)]
                    else old(inventory.slots))
    {
      ghost var b := Binding();
      DrainBound(jobs, b, slot);
      inventory.SetCapacity(slot, ZERO);
    }

    /** A new worker gets the first slot that is both detached and zeroed, or a new one. */
    method Attach(name: string, capacity: Resources) returns (slot: SlotIndex)
      requires Steady()
      modifies this`names, inventory
      ensures Steady() && Life() == old(Life()) && Strays() == old(Strays())
      ensures Attaches(old(Binding()), name, capacity, slot, Binding())
    {
      ghost var b := Binding();
      NamesCoverSlots(jobs, b);
      slot := 0;
      while slot < |names| && !(names[slot] == None && inventory.slots[slot].capacity == ZERO)
        invariant slot <= |names| && Binding() == b && forall s :: 0 <= s < slot ==> names[s].Some?
      {
        slot := slot + 1;
      }
      if slot < |names| {
        ReuseBound(jobs, b, slot, capacity, name);
        inventory.SetCapacity(slot, capacity);
        names := names[slot := Some(name)];
      } else {
        AttachBound(jobs, b, capacity, name);
        slot := inventory.PushSlot(capacity);
        names := names + [Some(name)];
      }
    }

    /** Tries to put a job on `slot` without a dispatch. */
    method TryBind(id: JobId, slot: SlotIndex, request: Resources, ends: u64) returns (ok: bool)
      modifies this`running, inventory
      ensures ok <==> slot < |old(inventory.slots)| && Holds(old(inventory.slots)[slot], request)
      ensures !ok ==> Binding() == old(Binding())
      ensures ok ==> running == old(running) + [RunningJob(id, slot, request, ends)]
      ensures ok ==> inventory.slots == Charge(old(inventory.slots), slot, request)
    {
      var r := inventory.TryAllocate(slot, request);
      ok := r.Ok?;
      if ok { running := running + [RunningJob(id, slot, request, ends)]; }
    }

    /** Takes a held job off the reconcile list and tries to put it on `slot`. */
    method TryAdopt(id: JobId, slot: SlotIndex, request: Resources, ends: u64) returns (ok: bool, ghost pos: nat)
      requires id in held && Arenas.Live(jobs, id) && request == Arenas.Value(jobs, id).request
      modifies this`held, this`running, inventory
      ensures pos < |old(held)| && old(held)[pos] == id
      ensures ok <==> slot < |old(inventory.slots)| && Holds(old(inventory.slots)[slot], request)
      ensures ok ==> Adopts(jobs, old(Binding()), pos, slot, ends, Binding()) && id in JobsOn(running, slot)
      ensures !ok ==> Unholds(old(Binding()), pos, Binding())
    {
      ghost var b := Binding();
      var present := Unhold(id);
      pos :| Unholds(b, pos, Binding()) && b.held[pos] == id;
      ok := TryBind(id, slot, request, ends);
      if ok { OnSlotAt(running, |running| - 1); }
    }

    /** `id`, just taken off its worker or the reconcile list, goes back to its queue. */
    method GiveUp(id: JobId, now: u64, ghost b: Binding)
      requires scheduler.Parts() && Good(Life(), config.maxPreemptions) && Bound(jobs, b) && Unbinds(b, id, Binding())
      requires Small(jobs) && Callable(jobs, scheduler.Books()) && OnCpu(jobs, id)
      modifies this, scheduler, scheduler.ready.low, scheduler.ready.normal, scheduler.ready.high,
               scheduler.ready.urgent, scheduler.deps, scheduler.fairshare
      ensures Steady() && Binding() == old(Binding()) && Strays() == Bindings.Strays(old(jobs), b)
      ensures base == old(base) && terminal == old(terminal)
      ensures jobs == AfterMove(old(jobs), id, JobState.Ready) && log == old(log) + [Requeued(id, now)]
    {
      ghost var l := Life();
      RequeueJob(id, now);
      RequeueKeeps(l, b, id, now, Life(), Binding(), config.maxPreemptions);
    }

    /** A held job is adopted by the worker that kept it, or requeued when the worker cannot hold it. */
    method AdoptRunning(id: JobId, slot: SlotIndex, now: u64) returns (kept: bool)
      requires Steady() && id in held && slot < |names| && names[slot].Some?
      modifies this, inventory, scheduler, scheduler.ready.low, scheduler.ready.normal, scheduler.ready.high,
               scheduler.ready.urgent, scheduler.deps, scheduler.fairshare
      ensures base == old(base) && old(log) <= log && terminal == old(terminal)
      ensures Steady() && Strays() == old(Strays()) && names == old(names) && Small(old(jobs))
        && Arenas.Live(old(jobs), id)
      ensures kept <==>
                && slot < |old(inventory.slots)|
                && Holds(old(inventory.slots)[slot], Arenas.Value(old(jobs), id).request)
      ensures SameElsewhere(old(Binding()), Binding(), id)
      ensures kept ==> Life() == old(Life()) && id in JobsOn(running, slot)
      ensures !kept ==>
                && !Located(Binding(), id)
                && jobs == AfterMove(old(jobs), id, JobState.Ready) && log == old(log) + [Requeued(id, now)]
    {
      ghost var l, b := Life(), Binding();
      GoodEnables(l, config.maxPreemptions);
      HeldRuns(jobs, b, id);
      var job := Arenas.Value(jobs, id);
      ghost var pos: nat;
      kept, pos := TryAdopt(id, slot, job.request, SaturatingAddTime(now, job.walltime));
      ghost var b' := Binding();
      if kept {
        AdoptBound(jobs, b, pos, slot, SaturatingAddTime(now, job.walltime), b');
        assert Life() == l;
      } else {
        UnboundElsewhere(jobs, b, id, b');
        GiveUp(id, now, b);
      }
    }

    /** A bound job follows its worker to a new slot, or is requeued when the slot cannot hold it. */
    method FollowWorker(id: JobId, slot: SlotIndex, now: u64) returns (kept: bool)
      requires Steady() && id in RunIds(running) && slot < |names| && names[slot].Some?
      modifies this, inventory, scheduler, scheduler.ready.low, scheduler.ready.normal, scheduler.ready.high,
               scheduler.ready.urgent, scheduler.deps, scheduler.fairshare
      ensures base == old(base) && old(log) <= log && terminal == old(terminal)
      ensures Steady() && Strays() == old(Strays()) && names == old(names) && Small(old(jobs))
      ensures exists r :: r in old(running) && r.job == id && (kept <==> CanMove(old(inventory.slots), r, slot))
      ensures SameElsewhere(old(Binding()), Binding(), id)
      ensures kept ==> Life() == old(Life()) && id in JobsOn(running, slot)
      ensures !kept ==>
                && !Located(Binding(), id)
                && jobs == AfterMove(old(jobs), id, JobState.Ready) && log == old(log) + [Requeued(id, now)]
    {
      ghost var l, b := Life(), Binding();
      GoodEnables(l, config.maxPreemptions);
      BoundCovers(jobs, b, id);
      NamesCoverSlots(jobs, b);
      var pos: nat :| pos < |running| && running[pos].job == id;
      kept := Rebind(pos, slot);
      ghost var b' := Binding();
      assert Life() == l;
      if kept {
        RebindBound(jobs, b, pos, slot, b');
      } else {
        UnboundElsewhere(jobs, b, id, b');
        GiveUp(id, now, b);
      }
    }

    /** Moves one entry to another slot; when that fails the entry is dropped and its capacity returned. */
    method Rebind(pos: nat, slot: SlotIndex) returns (ok: bool)
      requires pos < |running| && running[pos].slot < |inventory.slots| && slot < |inventory.slots|
      modifies this`running, inventory
      ensures ok <==> CanMove(old(inventory.slots), old(running)[pos], slot)
      ensures ok ==> Rebinds(old(Binding()), pos, slot, Binding())
      ensures !ok ==> Releases(old(Binding()), pos, Binding())
    {
      var r := running[pos];
      var released := inventory.Release(r.slot, r.resources);
      var result := inventory.TryAllocate(slot, r.resources);
      ok := result.Ok?;
      running := if ok then running[pos := r.(slot := slot)] else SwapRemove(running, pos);
    }

    /** A worker that came back claims `id`: adopt it, move it, or have the worker stop it. The latter happens
        exactly when the engine knows the job on no worker afterwards. */
    method Claim(id: JobId, slot: SlotIndex, now: u64) returns (kill: bool)
      requires Steady() && slot < |names| && names[slot].Some?
      modifies this, inventory, scheduler, scheduler.ready.low, scheduler.ready.normal, scheduler.ready.high,
               scheduler.ready.urgent, scheduler.deps, scheduler.fairshare
      ensures base == old(base) && old(log) <= log && terminal == old(terminal)
      ensures Steady() && Strays() == old(Strays()) && names == old(names) && Small(old(jobs))
      ensures kill <==> !Located(Binding(), id)
      ensures SameElsewhere(old(Binding()), Binding(), id)
      ensures kill && !Located(old(Binding()), id) ==> Life() == old(Life()) && Binding() == old(Binding())
      ensures kill && Located(old(Binding()), id) ==>
                && Arenas.Live(old(jobs), id)
                && jobs == AfterMove(old(jobs), id, JobState.Ready) && log == old(log) + [Requeued(id, now)]
      ensures !kill ==> Life() == old(Life()) && Located(old(Binding()), id) && id in JobsOn(running, slot)
      ensures id in old(held) ==>
                && Arenas.Live(old(jobs), id)
                && (!kill <==>
                      && slot < |old(inventory.slots)|
                      && Holds(old(inventory.slots)[slot], Arenas.Value(old(jobs), id).request))
      ensures id in RunIds(old(running)) ==>
                exists r :: r in old(running) && r.job == id && (!kill <==> CanMove(old(inventory.slots), r, slot))
    {
      ghost var b := Binding();
      BoundCovers(jobs, b, id);
      GoodEnables(Life(), config.maxPreemptions);
      if id in held {
        HeldRuns(jobs, b, id);
        var kept := AdoptRunning(id, slot, now);
        if kept { OnSlotRuns(running, slot, id); }
        kill := !kept;
      } else if exists r :: r in running && r.job == id {
        InRunIds(running, id);
        var kept := FollowWorker(id, slot, now);
        if kept { OnSlotRuns(running, slot, id); }
        kill := !kept;
      } else {
        InRunIds(running, id);
        kill := true;
      }
    }

    /** A worker attaches, claiming the jobs it kept running while it was away: of those it is told to stop exactly the
        ones the engine knows on no worker now, and no other job changes. */
    method OnWorkerJoined(name: string, capacity: Resources, claimed: seq<JobId>,
                          now: u64) returns (slot: SlotIndex, kills: seq<JobId>)
      requires Steady()
      modifies this, inventory, scheduler, scheduler.ready.low, scheduler.ready.normal, scheduler.ready.high,
               scheduler.ready.urgent, scheduler.deps, scheduler.fairshare
      ensures base == old(base) && old(log) <= log && terminal == old(terminal)
      ensures Steady() && Strays() == old(Strays()) && slot < |names| && names[slot] == Some(name)
      ensures forall x :: x in kills ==> x in claimed
      ensures forall x :: x in claimed ==> (x in kills <==> !Located(Binding(), x))
      ensures SameBut(old(jobs), jobs, kills)
      ensures claimed == [] ==> Life() == old(Life()) && Attaches(old(Binding()), name, capacity, slot, Binding())
    {
      slot := Attach(name, capacity);
      kills := [];
      for k := 0 to |claimed|
        invariant Steady() && Strays() == old(Strays()) && slot < |names| && names[slot] == Some(name)
        invariant base == old(base) && old(log) <= log && terminal == old(terminal)
        invariant Answered(Binding(), claimed[..k], kills) && SameBut(old(jobs), jobs, kills)
        invariant claimed == [] ==> Life() == old(Life()) && Attaches(old(Binding()), name, capacity, slot, Binding())
      {
        ghost var before, was := jobs, Binding();
        var kill := Claim(claimed[k], slot, now);
        AnsweredNext(was, Binding(), claimed, k, kills, kill);
        SameButNext(old(jobs), before, jobs, claimed[k], kills, kill);
        if kill { kills := kills + [claimed[k]]; }
      }
      assert claimed[..|claimed|] == claimed;
    }

    // ---- ticks ----

    /** Enters each decision in the running set and the log. */
    method OnDispatched(decisions: seq<Decision>, before: Jobs, now: u64)
      requires AllLive(decisions, before)
      modifies this`running, this`log
      ensures running == old(running) + Started(decisions, before, now)
      ensures log == old(log) + DispatchRecords(JobsOf(decisions), now)
    {
      for k := 0 to |decisions|
        invariant running == old(running) + Started(decisions, before, now)[..k]
        invariant log == old(log) + DispatchRecords(JobsOf(decisions), now)[..k]
      {
        var d := decisions[k];
        running := running + [StartedOne(d, Arenas.Value(before, d.job), now)];
        log := log + [Record.Dispatched(d.job, now)];
      }
    }

    method RunCycle(now: u64) returns (plan: Plan, ghost current: seq<Ledger>)
      requires scheduler.Parts() && Small(jobs) && Callable(jobs, scheduler.Books()) && ReadyNonZero(jobs)
        && Sound(inventory.slots)
      modifies this`jobs, inventory, scheduler, scheduler.ready.low, scheduler.ready.normal, scheduler.ready.high,
               scheduler.ready.urgent, scheduler.deps, scheduler.fairshare
      ensures scheduler.Parts()
      ensures CycleStep(scheduler.fairshare.table, old(jobs), old(scheduler.Books()), current, JobsOf(plan.Decisions()),
                        now, Quantum(config.halfLife), jobs, scheduler.Books())
      ensures Placed(plan.Decisions(), old(jobs), old(inventory.slots), inventory.slots)
      ensures Scheduled(scheduler.fairshare.table, plan, old(jobs), old(scheduler.Books()), old(inventory.slots),
                        running, now, config, inventory.slots, running + Started(plan.Decisions(), old(jobs), now))
    {
      var after;
      after, plan, current := scheduler.RunCycle(jobs, inventory, running, now, config);
      CycleScheduled(scheduler.fairshare.table, plan, jobs, old(scheduler.Books()), old(inventory.slots), running, now,
                     config, inventory.slots);
      jobs := after;
    }

    /** One scheduling cycle: what it placed is running, charged, bound and logged, and its head is not delayed. */
    method Cycle(now: u64) returns (plan: Plan)
      requires Steady()
      modifies this, inventory, scheduler, scheduler.ready.low, scheduler.ready.normal, scheduler.ready.high,
               scheduler.ready.urgent, scheduler.deps, scheduler.fairshare
      ensures base == old(base) && old(log) <= log
      ensures Steady() && Strays() == old(Strays()) && names == old(names) && held == old(held)
        && terminal == old(terminal) && reconcileUntil == old(reconcileUntil)
      ensures Scheduled(scheduler.fairshare.table, plan, old(jobs), old(scheduler.Books()), old(inventory.slots),
                        old(running), now, config, inventory.slots, running)
      ensures Small(old(jobs)) && jobs == AfterDispatch(old(jobs), JobsOf(plan.Decisions()))
      ensures log == old(log) + DispatchRecords(JobsOf(plan.Decisions()), now)
    {
      ghost var l, b := Life(), Binding();
      GoodEnables(l, config.maxPreemptions);
      GoodAsks(l, b, config.maxPreemptions);
      var before := jobs;
      ghost var current;
      plan, current := RunCycle(now);
      OnDispatched(plan.Decisions(), before, now);
      CycleKeepsAll(scheduler.fairshare.table, l, b, current, plan.Decisions(), now, Quantum(config.halfLife), Life(),
                    Binding(), config.maxPreemptions);
    }

    /** The eviction of a Running `id` is entered in the arena and the log. */
    method LogEviction(id: JobId, stopped: Jobs, now: u64)
      requires Steady() && Small(jobs) && id in RunIds(running) && In(jobs, id, JobState.Running)
      requires Arenas.Value(jobs, id).preemptions < config.maxPreemptions
        && stopped == AfterMove(jobs, id, JobState.Preempted)
      modifies this`jobs, this`log
      ensures Steady() && Strays() == old(Strays()) && Binding() == old(Binding())
      ensures jobs == stopped && log == old(log) + [Record.Preempted(id, now)]
    {
      ghost var l, b := Life(), Binding();
      jobs, log := stopped, log + [Record.Preempted(id, now)];
      assert Binding() == b;
      PreemptKeepsAll(l, b, id, now, Life(), config.maxPreemptions);
    }

    /** A running `id` is told to stop and the eviction logged; one already told is left alone. */
    method PreemptOne(id: JobId, now: u64)
      requires Steady() && Small(jobs) && id in RunIds(running)
      requires Arenas.Live(jobs, id) && Arenas.Value(jobs, id).preemptions < config.maxPreemptions
      modifies this`jobs, this`log
      ensures Steady() && Strays() == old(Strays()) && Binding() == old(Binding())
      ensures jobs == if In(old(jobs), id, JobState.Running) then AfterMove(old(jobs), id, JobState.Preempted)
                else old(jobs)
      ensures log == if In(old(jobs), id, JobState.Running) then old(log) + [Record.Preempted(id, now)] else old(log)
    {
      var error, after := scheduler.Preempt(id, jobs);
      if error == None { LogEviction(id, after, now); }
    }

    /** Each of `ids` is told to stop, in order. */
    method PreemptEach(ids: seq<JobId>, now: u64)
      requires Steady() && Small(jobs) && Evictable(jobs, Binding(), ids, config.maxPreemptions)
      modifies this`jobs, this`log
      ensures Steady() && Strays() == old(Strays()) && Binding() == old(Binding())
      ensures jobs == AfterPreempt(old(jobs), ids) && log == old(log) + PreemptRecords(ids, now)
    {
      ghost var start, records, b := jobs, log, Binding();
      PreemptNone(start);
      for k := 0 to |ids|
        invariant Steady() && Strays() == old(Strays()) && Binding() == b
        invariant jobs == AfterPreempt(start, ids[..k]) && log == records + PreemptRecords(ids[..k], now)
      {
        PreemptOneMore(start, b, ids, k, config.maxPreemptions, now);
        PreemptOne(ids[k], now);
      }
      assert ids[..|ids|] == ids;
    }

    /** The evictions an unplaced head calls for: the best plan there is, carried out and logged. */
    method PlanEvictions(head: JobId, now: u64) returns (evictions: seq<Eviction>)
      requires Steady()
      modifies this`jobs, this`log
      ensures Steady() && Strays() == old(Strays()) && Small(old(jobs))
      ensures !Arenas.Live(old(jobs), head) ==> evictions == []
      ensures Arenas.Live(old(jobs), head) ==>
                BestPlan(old(jobs), Arenas.Value(old(jobs), head), running, inventory.slots, now, config, evictions)
      ensures jobs == AfterPreempt(old(jobs), EvictedJobs(evictions))
      ensures log == old(log) + PreemptRecords(EvictedJobs(evictions), now)
    {
      ghost var l, b := Life(), Binding();
      GoodEnables(l, config.maxPreemptions);
      PreemptNone(jobs);
      evictions := [];
      if Arenas.Live(jobs, head) {
        var best;
        evictions, best := PlanPreemption(jobs, Arenas.Value(jobs, head), running, inventory.slots, now, config);
        assert best.Some? || MayPlan(jobs, Arenas.Value(jobs, head), running, config) ==>
            Chosen(jobs, Arenas.Value(jobs, head), running, inventory.slots, now, config, best, evictions);
        RunnersDiffer(jobs, b);
        PlanEvictable(jobs, b, Arenas.Value(jobs, head), now, config, best, evictions);
        PreemptEach(EvictedJobs(evictions), now);
      }
    }

    /** Drops the oldest note and, if its job is still there, the job. */
    method ForgetOldest()
      requires Steady() && Young(jobs) && terminal != []
      modifies this`jobs, this`terminal, this`log
      ensures Steady() && Strays() == old(Strays()) && Young(jobs)
      ensures terminal == old(terminal)[1..]
      ensures jobs == Forget(old(jobs), old(terminal)[0].1)
      ensures log == old(log) + ForgetRecord(old(jobs), old(terminal)[0].1)
    {
      var id := terminal[0].1;
      ghost var l, b := Life(), Binding();
      NotedPopped(terminal);
      terminal := terminal[1..];
      if Arenas.Live(jobs, id) {
        ForgetKeeps(l, b, id, Noted(terminal), config.maxPreemptions);
        jobs, log := Arenas.Remove(jobs, id), log + [Forgotten(id)];
        assert Life() == Lives.Life(Arenas.Remove(l.jobs, id), l.books, l.base, l.log + [Forgotten(id)],
                                    Noted(terminal));
      } else {
        StaleNote(l, id, Noted(terminal), config.maxPreemptions);
        assert Life() == l.(noted := Noted(terminal));
      }
      assert Binding() == b;
    }

    /** Exactly the notes as old as the window are dropped, each with its job; no slot has been reused 2^32 times. */
    method ForgetExpired(now: u64)
      requires Steady() && Young(jobs)
      modifies this`jobs, this`terminal, this`log
      ensures Steady() && Strays() == old(Strays())
      ensures Expires(old(jobs), old(log), old(terminal), now, retain, jobs, log, terminal)
    {
      ghost var n: nat, queue := 0, terminal;
      while terminal != [] && Monus(now, terminal[0].0) >= retain
        invariant Steady() && Strays() == old(Strays()) && Young(jobs)
        invariant var going := Forgetting(old(jobs), old(log), queue, n, now, retain, jobs, terminal, log); going
        decreases |terminal|
      {
        ghost var before, was, records := jobs, terminal, log;
        ForgetOldest();
        ForgetNext(old(jobs), old(log), queue, n, now, retain, before, was, records);
        n := n + 1;
      }
      ExpiresAll(old(jobs), old(log), queue, n, now, retain, jobs, log, terminal);
    }

    /** Nobody is waited for any longer: the held jobs go back to their queues. */
    method RequeueHeld(now: u64)
      requires Steady()
      modifies this, inventory, scheduler, scheduler.ready.low, scheduler.ready.normal, scheduler.ready.high,
               scheduler.ready.urgent, scheduler.deps, scheduler.fairshare
      ensures Steady() && Strays() == old(Strays()) && base == old(base) && terminal == old(terminal)
      ensures Binding() == old(Binding()).(held := []) && reconcileUntil == None && Small(old(jobs))
      ensures jobs == AfterRequeue(old(jobs), old(held)) && log == old(log) + RequeueRecords(old(held), now)
    {
      ghost var l, b := Life(), Binding();
      GoodEnables(l, config.maxPreemptions);
      var unclaimed := held;
      HeldOnCpu(jobs, b);
      held, reconcileUntil := [], None;
      ghost var b' := Binding();
      assert Life() == l;
      RequeueEach(unclaimed, now, config.maxPreemptions);
      UnholdAll(l.jobs, b, b');
      assert Binding() == b';
    }

    /** Jobs still waiting for a worker at the deadline go back to their queues, all of them at once, and never before;
        the deadline is set when some are first found waiting. */
    method ExpireReconcile(now: u64)
      requires Steady()
      modifies this, inventory, scheduler, scheduler.ready.low, scheduler.ready.normal, scheduler.ready.high,
               scheduler.ready.urgent, scheduler.deps, scheduler.fairshare
      ensures base == old(base) && old(log) <= log
      ensures Steady() && Strays() == old(Strays())
      ensures Reconciles(old(jobs), old(log), old(held), Clock(old(reconcileUntil), now, retain, window), jobs, log,
                         held, reconcileUntil)
      ensures Binding() == old(Binding()).(held := held) && terminal == old(terminal)
    {
      ghost var l := Life();
      if held == [] {
        reconcileUntil := None;
        assert Life() == l;
        return;
      }
      if reconcileUntil == None { reconcileUntil := Some(SaturatingAddTime(now, window)); }
      assert Life() == l;
      if now < reconcileUntil.value { return; }
      RequeueHeld(now);
    }

    /** The placing half of a tick: a cycle, then the cheapest evictions its unplaced head calls for. */
    method PlaceAndEvict(now: u64) returns (plan: Plan, evictions: seq<Eviction>)
      requires Steady() && Young(jobs)
      modifies this, inventory, scheduler, scheduler.ready.low, scheduler.ready.normal, scheduler.ready.high,
               scheduler.ready.urgent, scheduler.deps, scheduler.fairshare
      ensures base == old(base) && old(log) <= log
      ensures Steady() && Strays() == old(Strays()) && Young(jobs) && Small(old(jobs))
      ensures held == old(held) && terminal == old(terminal) && reconcileUntil == old(reconcileUntil)
      ensures Scheduled(scheduler.fairshare.table, plan, old(jobs), old(scheduler.Books()), old(inventory.slots),
                        old(running), now, config, inventory.slots, running)
      ensures EvictedFor(plan, AfterDispatch(old(jobs), JobsOf(plan.Decisions())), running, inventory.slots, now,
                         config, evictions)
      ensures jobs == AfterPlacing(old(jobs), plan, evictions) && log == old(log) + PlacingRecords(plan, evictions, now)
    {
      plan := Cycle(now);
      evictions := [];
      YoungDispatch(old(jobs), JobsOf(plan.Decisions()));
      PreemptNone(jobs);
      HeadIsCandidate(scheduler.fairshare.table, plan, old(jobs), old(scheduler.Books()), old(inventory.slots),
                      old(running), now, config, inventory.slots, running);
      if plan.head.Some? {
        var ready := jobs;
        evictions := PlanEvictions(plan.candidates[plan.head.value].job, now);
        Appended(old(log), DispatchRecords(JobsOf(plan.Decisions()), now), PreemptRecords(EvictedJobs(evictions), now));
        YoungPreempt(ready, EvictedJobs(evictions));
      }
    }

    /** The settling half of a tick: what has expired is forgotten, who was waited for too long goes back. */
    method Settle(now: u64)
      requires Steady() && Young(jobs)
      modifies this, inventory, scheduler, scheduler.ready.low, scheduler.ready.normal, scheduler.ready.high,
               scheduler.ready.urgent, scheduler.deps, scheduler.fairshare
      ensures base == old(base) && old(log) <= log
      ensures Steady() && Strays() == old(Strays()) && running == old(running)
        && inventory.slots == old(inventory.slots)
      ensures Settles(old(jobs), old(log), old(terminal), old(held), Clock(old(reconcileUntil), now, retain, window),
                      jobs, log, terminal, held, reconcileUntil)
    {
      ForgetExpired(now);
      ghost var kept, records := jobs, log;
      ExpireReconcile(now);
      ThenReconciled(old(jobs), old(log), old(terminal), old(held), Clock(old(reconcileUntil), now, retain, window),
                     kept, records, jobs, log, terminal, held, reconcileUntil);
    }

    /** One tick. An unplaced head keeps its reservation through it, whatever it needed evicted is the cheapest offer,
        exactly what finished before the window is forgotten, and unclaimed jobs go back together once their deadline
        is reached. */
    method Tick(now: u64) returns (plan: Plan, evictions: seq<Eviction>)
      requires Steady() && Young(jobs)
      modifies this, inventory, scheduler, scheduler.ready.low, scheduler.ready.normal, scheduler.ready.high,
               scheduler.ready.urgent, scheduler.deps, scheduler.fairshare
      ensures base == old(base) && old(log) <= log
      ensures Steady() && Strays() == old(Strays()) && Small(old(jobs))
      ensures Scheduled(scheduler.fairshare.table, plan, old(jobs), old(scheduler.Books()), old(inventory.slots),
                        old(running), now, config, inventory.slots, running)
      ensures EvictedFor(plan, AfterDispatch(old(jobs), JobsOf(plan.Decisions())), running, inventory.slots, now,
                         config, evictions)
      ensures Settles(AfterPlacing(old(jobs), plan, evictions), old(log) + PlacingRecords(plan, evictions, now),
                      old(terminal), old(held), Clock(old(reconcileUntil), now, retain, window),
                      jobs, log, terminal, held, reconcileUntil)
    {
      plan, evictions := PlaceAndEvict(now);
      Settle(now);
    }

    // ---- recovery ----

    method RestoreOne(id: JobId, at: u64)
      requires scheduler.Parts() && Small(jobs) && In(jobs, id, JobState.Ready)
      modifies this`jobs, this`terminal, this`log, scheduler, scheduler.ready.low, scheduler.ready.normal,
               scheduler.ready.high, scheduler.ready.urgent, scheduler.deps, scheduler.fairshare
      ensures scheduler.Parts() && terminal == old(terminal)
      ensures jobs == AfterMove(old(jobs), id, JobState.Running)
      ensures var step := MoveStep(old(jobs), old(scheduler.Books()), id, JobState.Running, scheduler.Books()); step
      ensures log == old(log) + [Record.Dispatched(id, at)]
    {
      log := log + [Record.Dispatched(id, at)];
      var error, after := scheduler.RestoreRunning(id, jobs, at, config);
      jobs := after;
    }

    /** Replays a dispatch. */
    method ReplayDispatched(id: JobId, at: u64, ghost max: nat)
      requires scheduler.Parts() && Good(Life(), max) && Small(jobs) && Bounded(jobs, max)
      requires Fits(Life().Durable(), Record.Dispatched(id, at))
        && Apply(Life().Durable(), Record.Dispatched(id, at)).Some?
      modifies this`jobs, this`terminal, this`log, scheduler, scheduler.ready.low, scheduler.ready.normal,
               scheduler.ready.high, scheduler.ready.urgent, scheduler.deps, scheduler.fairshare
      ensures scheduler.Parts() && Good(Life(), max)
      ensures Life().Durable() == Apply(old(Life()).Durable(), Record.Dispatched(id, at)).value
        && log == old(log) + [Record.Dispatched(id, at)]
    {
      ghost var l := Life();
      GoodEnables(l, max);
      RestoreOne(id, at);
      MoveReplayed(l, Record.Dispatched(id, at), Life(), max);
    }

    /** Replays a requeue. */
    method ReplayRequeued(id: JobId, at: u64, ghost max: nat)
      requires scheduler.Parts() && Good(Life(), max) && Small(jobs) && Bounded(jobs, max)
      requires Fits(Life().Durable(), Requeued(id, at)) && Apply(Life().Durable(), Requeued(id, at)).Some?
      modifies this`jobs, this`terminal, this`log, scheduler, scheduler.ready.low, scheduler.ready.normal,
               scheduler.ready.high, scheduler.ready.urgent, scheduler.deps, scheduler.fairshare
      ensures scheduler.Parts() && Good(Life(), max)
      ensures Life().Durable() == Apply(old(Life()).Durable(), Requeued(id, at)).value
        && log == old(log) + [Requeued(id, at)]
    {
      ghost var l := Life();
      GoodEnables(l, max);
      RequeueJob(id, at);
      MoveReplayed(l, Requeued(id, at), Life(), max);
    }

    /** Replays an eviction order. */
    method ReplayPreempted(id: JobId, at: u64, ghost max: nat)
      requires scheduler.Parts() && Good(Life(), max) && Small(jobs) && Bounded(jobs, max)
      requires Fits(Life().Durable(), Record.Preempted(id, at))
        && Apply(Life().Durable(), Record.Preempted(id, at)).Some?
      modifies this`jobs, this`terminal, this`log, scheduler, scheduler.ready.low, scheduler.ready.normal,
               scheduler.ready.high, scheduler.ready.urgent, scheduler.deps, scheduler.fairshare
      ensures scheduler.Parts() && Good(Life(), max)
      ensures Life().Durable() == Apply(old(Life()).Durable(), Record.Preempted(id, at)).value
        && log == old(log) + [Record.Preempted(id, at)]
    {
      ghost var l := Life();
      GoodEnables(l, max);
      PreemptIsMove(jobs, scheduler.Books(), id);
      var error, after := scheduler.Preempt(id, jobs);
      jobs, log := after, log + [Record.Preempted(id, at)];
      MoveReplayed(l, Record.Preempted(id, at), Life(), max);
    }

    /** Replays a job's end. */
    method ReplayEnd(r: Record, ghost max: nat)
      requires scheduler.Parts() && Good(Life(), max) && Small(jobs)
      requires r.Completed? || r.Failed? || r.Cancelled?
      requires Apply(Life().Durable(), r).Some?
      modifies this`jobs, this`terminal, this`log, scheduler, scheduler.ready.low, scheduler.ready.normal,
               scheduler.ready.high, scheduler.ready.urgent, scheduler.deps, scheduler.fairshare
      ensures scheduler.Parts() && Good(Life(), max)
      ensures Life().Durable() == Apply(old(Life()).Durable(), r).value && log == old(log) + [r]
    {
      ghost var l := Life();
      GoodEnables(l, max);
      match r {
        case Completed(id, at) =>
          NotedOneMore(terminal, at, id);
          var promoted := Complete(id, at);
          CompletionLives(l, id, jobs, scheduler.Books(), promoted, at, max);
          ApplyCompleted(l.Durable(), id, at);
        case Failed(id, at) =>
          var cascade := Fail(id, at);
          NotedAll(old(terminal), at, [id] + cascade);
          EndReplayed(l, id, JobState.Failed, r, Life(), cascade, max);
        case Cancelled(id, at) =>
          var cascade := CancelJob(id, at);
          NotedAll(old(terminal), at, [id] + cascade);
          EndReplayed(l, id, JobState.Cancelled, r, Life(), cascade, max);
      }
    }

    /** Replays a submission; refused when the arena would issue another handle or the job would be refused. */
    method ReplaySubmitted(id: JobId, job: Job, ghost max: nat)
      requires scheduler.Parts() && Good(Life(), max) && Small(jobs) && job.preemptions == 0 && job.request != ZERO
      requires Apply(Life().Durable(), Record.Submitted(id, job)).Some?
      modifies this`jobs, this`terminal, this`log, scheduler, scheduler.ready.low, scheduler.ready.normal,
               scheduler.ready.high, scheduler.ready.urgent, scheduler.deps, scheduler.fairshare
      ensures scheduler.Parts() && Good(Life(), max)
      ensures Life().Durable() == Apply(old(Life()).Durable(), Record.Submitted(id, job)).value
        && log == old(log) + [Record.Submitted(id, job)]
    {
      ghost var l := Life();
      GoodEnables(l, max);
      var c, issued, accepted := Admit(job, job.submitTime);
      if c.readiness.Doomed? { NotedOneMore(old(terminal), job.submitTime, issued); }
      SubmissionLives(l, job, c.readiness, scheduler.Books(), max);
      ApplySubmitted(l.Durable(), job, c.readiness);
      SubmissionDone(Arenas.Insert(l.jobs, job), l.books, issued, c.readiness, scheduler.Books());
    }

    /** Replays one record through the calls the live engine makes. */
    method ApplyRecord(r: Record, ghost max: nat)
      requires scheduler.Parts() && Good(Life(), max) && Small(jobs) && Bounded(jobs, max)
      requires Fits(Life().Durable(), r) && Apply(Life().Durable(), r).Some?
      modifies this`jobs, this`terminal, this`log, scheduler, scheduler.ready.low, scheduler.ready.normal,
               scheduler.ready.high, scheduler.ready.urgent, scheduler.deps, scheduler.fairshare
      ensures scheduler.Parts() && Good(Life(), max)
      ensures Life().Durable() == Apply(old(Life()).Durable(), r).value && log == old(log) + [r]
    {
      if r.Submitted? {
        ReplaySubmitted(r.id, r.job, max);
      } else if r.Forgotten? {
        ghost var l := Life();
        ForgettingReplayed(l, r.id, max);
        jobs, log := Arenas.Remove(jobs, r.id), log + [r];
        assert Life() == Lives.Life(Arenas.Remove(l.jobs, r.id), l.books, l.base, l.log + [r], l.noted);
      } else if r.Completed? || r.Failed? || r.Cancelled? {
        ReplayEnd(r, max);
      } else if r.Dispatched? {
        ReplayDispatched(r.id, r.at, max);
      } else if r.Requeued? {
        ReplayRequeued(r.id, r.at, max);
      } else {
        ReplayPreempted(r.id, r.at, max);
      }
    }

    method ReplayNext(records: seq<Record>, k: nat, ghost max: nat)
      requires scheduler.Parts() && Good(Life(), max) && Bounded(jobs, max) && max > 0
      requires var replayed := ReplayedTo(base, records, k, Life().Durable());
               k < |records| && replayed && log == records[..k]
      modifies this`jobs, this`terminal, this`log, scheduler, scheduler.ready.low, scheduler.ready.normal,
               scheduler.ready.high, scheduler.ready.urgent, scheduler.deps, scheduler.fairshare
      ensures scheduler.Parts() && Good(Life(), max) && Bounded(jobs, max)
      ensures var replayed := ReplayedTo(base, records, k + 1, Life().Durable()); replayed && log == records[..k + 1]
    {
      ghost var s, start := Life().Durable(), base;
      ReplayAt(start, records, k, s);
      ApplyBounded(s, records[k], max);
      ApplyRecord(records[k], max);
      OneRecordMore(records, k);
    }

    /** Replays a log an engine wrote, from where it starts: the arena it wrote it for, record by record. */
    method ReplayLog(records: seq<Record>, ghost max: nat)
      requires scheduler.Parts() && Good(Life(), max) && Bounded(jobs, max) && max > 0
      requires log == [] && ReplayedTo(base, records, 0, Life().Durable())
      modifies this`jobs, this`terminal, this`log, scheduler, scheduler.ready.low, scheduler.ready.normal,
               scheduler.ready.high, scheduler.ready.urgent, scheduler.deps, scheduler.fairshare
      ensures scheduler.Parts() && Good(Life(), max) && Bounded(jobs, max)
      ensures ReplayedTo(base, records, |records|, Life().Durable()) && log == records
    {
      for k := 0 to |records|
        invariant scheduler.Parts() && Good(Life(), max) && Bounded(jobs, max) && base == old(base)
        invariant ReplayedTo(base, records, k, Life().Durable()) && log == records[..k]
      {
        ReplayNext(records, k, max);
      }
      assert records[..|records|] == records;
    }

    /** Every handle in `state`, in slot order. */
    method CollectIn(state: JobState) returns (ids: seq<JobId>)
      requires Small(jobs)
      ensures ids == IdsIn(jobs.slots, state)
    {
      ids := [];
      for i := 0 to |jobs.slots|
        invariant ids == IdsIn(jobs.slots[..i], state)
      {
        assert jobs.slots[..i + 1][..i] == jobs.slots[..i];
        var slot := jobs.slots[i];
        if slot.Occupied? && slot.value.state == state { ids := ids + [JobId(i, slot.generation)]; }
      }
      assert jobs.slots[..|jobs.slots|] == jobs.slots;
    }

    /** The log starts over from a snapshot of the present state. */
    ghost method StartOver(l: Life, max: nat)
      requires Good(Life(), max + 1) && Small(l.jobs) && Bounded(l.jobs, max + 1)
        && jobs == AfterRequeue(l.jobs, IdsIn(l.jobs.slots, JobState.Preempted))
      modifies this`base, this`log
      ensures Good(Life(), max) && base == Life().Durable() && log == []
    {
      Settled(l, Life(), max);
      base, log := Life().Durable(), [];
    }

    /** Running jobs are put on the reconcile list and evictions in flight go back to their queues. */
    method HoldAndRequeue(at: u64)
      requires scheduler.Parts() && Good(Life(), config.maxPreemptions + 1) && Small(jobs)
        && Binding() == Bindings.Binding([], [], [], [])
      modifies this`held, this`jobs, this`terminal, this`log, scheduler, scheduler.ready.low, scheduler.ready.normal,
               scheduler.ready.high, scheduler.ready.urgent, scheduler.deps, scheduler.fairshare
      ensures scheduler.Parts() && Good(Life(), config.maxPreemptions + 1) && scheduler.done == old(scheduler.done)
      ensures jobs == AfterRequeue(old(jobs), IdsIn(old(jobs).slots, JobState.Preempted))
      ensures Binding() == Bindings.Binding([], [], [], IdsIn(old(jobs).slots, JobState.Running))
    {
      held := CollectIn(JobState.Running);
      var evicting := CollectIn(JobState.Preempted);
      EvictingOnCpu(jobs);
      RequeueEach(evicting, at, config.maxPreemptions + 1);
    }

    /** After replay: running jobs wait for their workers, evictions in flight are simply requeued, and the log
        starts over from a snapshot of the result. */
    method FinishRecovery(at: u64)
      requires scheduler.Parts() && Good(Life(), config.maxPreemptions + 1) && Bounded(jobs, config.maxPreemptions + 1)
      requires Binding() == Bindings.Binding([], [], [], [])
      modifies this, inventory, scheduler, scheduler.ready.low, scheduler.ready.normal, scheduler.ready.high,
               scheduler.ready.urgent, scheduler.deps, scheduler.fairshare
      ensures Valid() && Small(old(jobs))
      ensures jobs == AfterRequeue(old(jobs), IdsIn(old(jobs).slots, JobState.Preempted))
      ensures Binding() == Bindings.Binding([], [], [], IdsIn(old(jobs).slots, JobState.Running))
      ensures base == Life().Durable() && log == [] && scheduler.done == old(scheduler.done)
    {
      ghost var l := Life();
      GoodEnables(l, config.maxPreemptions + 1);
      HoldAndRequeue(at);
      StartOver(l, config.maxPreemptions);
      HeldBound(l.jobs, jobs, Binding());
    }
  }

  function NoteAll(terminal: seq<(u64, JobId)>, at: u64, ids: seq<JobId>): seq<(u64, JobId)> {
    terminal + seq(|ids|, i requires 0 <= i < |ids| => (at, ids[i]))
  }

  lemma NotedAll(terminal: seq<(u64, JobId)>, at: u64, ids: seq<JobId>)
    ensures Noted(NoteAll(terminal, at, ids)) == Noted(terminal) + Elements(ids)
  {
    var more, n := NoteAll(terminal, at, ids), |terminal|;
    forall x ensures x in Noted(more) <==> x in Noted(terminal) || x in Elements(ids) {
      if x in Noted(terminal) {
        var i :| 0 <= i < n && terminal[i].1 == x;
        assert more[i].1 == x;
      }
      if x in Elements(ids) {
        var i :| 0 <= i < |ids| && ids[i] == x;
        assert more[n + i].1 == x;
      }
      if x in Noted(more) {
        var i :| 0 <= i < |more| && more[i].1 == x;
        assert if i < n then terminal[i].1 == x else ids[i - n] == x;
      }
    }
  }

  lemma CompleteKeeps(l: Life, b: Binding, id: JobId, now: u64, l': Life, b': Binding, promoted: seq<JobId>, max: nat)
    requires Good(l, max) && Bound(l.jobs, b) && Unbinds(b, id, b') && OnCpu(l.jobs, id)
    requires CompletionStep(l.jobs, l.books, id, l'.jobs, l'.books, promoted)
    requires l'.base == l.base && l'.log == l.log + [Record.Completed(id, now)] && l'.noted == l.noted + {id}
    ensures Good(l', max) && Bound(l'.jobs, b') && Strays(l'.jobs, b') == Strays(l.jobs, b)
    ensures Small(l.jobs) && l'.jobs == AfterCompletion(l.jobs, l.books.done, id)
      && l'.books.done == l.books.done + {id}
  {
    GoodEnables(l, max);
    CompletionLives(l, id, l'.jobs, l'.books, promoted, now, max);
    ShiftCompletion(l.jobs, l.books.done, id);
    UnbindKeeps(l.jobs, l'.jobs, b, id, b');
  }

  lemma ApplyEnded(s: Replay.Durable, id: JobId, state: JobState, r: Record)
    requires Small(s.jobs) && Open(s.jobs, id) && EndsAs(s.jobs, id, state, r)
    ensures Apply(s, r) == Some(Replay.Durable(AfterTermination(s.jobs, id, state), s.done))
  {}

  /** `r` is the record of `id` ending in `state`. */
  ghost predicate EndsAs(jobs: Jobs, id: JobId, state: JobState, r: Record) {
    || (state.Failed? && r.Failed? && r.id == id && OnCpu(jobs, id))
    || (state.Cancelled? && r.Cancelled? && r.id == id)
  }

  lemma EndKeeps(l: Life, b: Binding, id: JobId, state: JobState, r: Record, l': Life, b': Binding, cascade: seq<JobId>,
                 max: nat)
    requires Good(l, max) && Bound(l.jobs, b) && Open(l.jobs, id) && EndsAs(l.jobs, id, state, r)
    requires if Located(b, id) then Unbinds(b, id, b') else b' == b
    requires TerminationStep(l.jobs, l.books, id, state, l'.jobs, l'.books, cascade)
    requires l'.base == l.base && l'.log == l.log + [r] && l'.noted == l.noted + Elements([id] + cascade)
    ensures Good(l', max) && Bound(l'.jobs, b') && Strays(l'.jobs, b') == Strays(l.jobs, b) - iset{id}
    ensures Located(b, id) ==> Strays(l'.jobs, b') == Strays(l.jobs, b)
    ensures Small(l.jobs) && l'.jobs == AfterTermination(l.jobs, id, state) && l'.books.done == l.books.done
  {
    GoodEnables(l, max);
    GoodDoomed(l, max, id);
    ApplyEnded(l.Durable(), id, state, r);
    TerminationLives(l, id, state, l'.jobs, l'.books, cascade, r, max);
    assert Elements([id] + cascade) == {id} + Elements(cascade);
    assert l'.noted == l.noted + {id} + Elements(cascade);
    ShiftTermination(l.jobs, id, state);
    if Located(b, id) { UnbindKeeps(l.jobs, l'.jobs, b, id, b'); } else { StrayEnds(l.jobs, l'.jobs, b, id); }
  }

  // ---- submission ----

  lemma GoodAdmits(l: Life, max: nat)
    requires Good(l, max) && Roomy(l.jobs)
    ensures CanAdmit(l.jobs) && Small(l.jobs) && Callable(l.jobs, l.books)
  {
    GoodEnables(l, max);
    GoodIsWhole(l, max);
    StoreAdmits(l.jobs);
  }

  lemma AdmitCallable(jobs: Jobs, job: Job, b: Books)
    requires CanAdmit(jobs) && Callable(jobs, b) && job.state.Submitted?
    ensures Small(Arenas.Insert(jobs, job)) && Admissible(Arenas.Insert(jobs, job), b)
    ensures In(Arenas.Insert(jobs, job), Arenas.NextId(jobs), JobState.Submitted)
    ensures Arenas.Value(Arenas.Insert(jobs, job), Arenas.NextId(jobs)) == job
  {
    assert Unlocked(0);
    InsertAdmits(jobs, job);
    var before := Arenas.Insert(jobs, job);
    forall c: PriorityClass, x ensures Queued(b.queues, c, x) <==>
        In(before, x, JobState.Ready) && Arenas.Value(before, x).priorityClass == c {
      assert Queued(b.queues, c, x) <==> In(jobs, x, JobState.Ready) && Arenas.Value(jobs, x).priorityClass == c;
    }
  }

  /** The verdict before the insert and the verdict after it are the same. */
  lemma SameVerdict(jobs: Jobs, job: Job, c: Classified, c': Classified)
    requires CanAdmit(jobs) && ClassifiesAs(jobs, Arenas.NextId(jobs), job.deps, c)
    requires ClassifiesAs(Arenas.Insert(jobs, job), Arenas.NextId(jobs), job.deps, c')
    ensures c' == c
  {
    var id := Arenas.NextId(jobs);
    InsertAdmits(jobs, job);
    ClassifyAfterInsert(jobs, Arenas.Insert(jobs, job), id, job.deps, c');
    ClassificationIsUnique(jobs, id, job.deps, c);
    ClassificationIsUnique(jobs, id, job.deps, c');
  }

  lemma ShiftSubmission(jobs: Jobs, job: Job, r: Readiness)
    requires CanAdmit(jobs)
    ensures Shifts(jobs, AfterSubmission(jobs, job, r), {}, {})
  {
    InsertAdmits(jobs, job.(state := StateFor(r)));
    var after := AfterSubmission(jobs, job, r);
    forall x ensures OnCpu(after, x) <==> OnCpu(jobs, x) {}
  }

  lemma SubmitKeeps(l: Life, b: Binding, job: Job, r: Readiness, l': Life, max: nat)
    requires Good(l, max) && Bound(l.jobs, b) && CanAdmit(l.jobs)
    requires job.state.Submitted? && job.preemptions == 0 && job.request != ZERO && job.account < MAX_ACCOUNTS
    requires ClassifiesAs(l.jobs, Arenas.NextId(l.jobs), job.deps, Verdict(r))
    requires SubmissionStep(Arenas.Insert(l.jobs, job), l.books, Arenas.NextId(l.jobs), r, l'.books)
    requires l'.jobs == AfterSubmission(l.jobs, job, r) && l'.base == l.base
      && l'.log == l.log + [Record.Submitted(Arenas.NextId(l.jobs), job)]
    requires l'.noted == if r.Doomed? then l.noted + {Arenas.NextId(l.jobs)} else l.noted
    ensures Good(l', max) && Bound(l'.jobs, b) && Strays(l'.jobs, b) == Strays(l.jobs, b)
  {
    SubmissionLives(l, job, r, l'.books, max);
    ShiftSubmission(l.jobs, job, r);
    StayBound(l.jobs, l'.jobs, b);
  }

  // ---- evictions ----

  lemma TwinCallable(a: Jobs, b: Jobs, books: Books)
    requires Twins(a, b) && Callable(a, books)
    ensures Callable(b, books)
  {
    assert Unlocked(0);
    TwinQueue(a, b, books.queues);
  }

  lemma TwinMove(a: Jobs, b: Jobs, books: Books, id: JobId, state: JobState, books': Books)
    requires Twins(a, b) && MoveStep(b, books, id, state, books')
    ensures MoveStep(a, books, id, state, books')
  {
    assert Unlocked(0);
    TwinJobs(a, b);
    assert PlainJob(Arenas.Value(a, id)) == PlainJob(Arenas.Value(b, id));
    if state.Ready? { TwinJoined(a, b, books.queues, {id}, books'.queues); }
    else if StateOf(a, id).Ready? { TwinPulled(a, b, books.queues, [id], books'.queues); }
  }

  lemma TwinJoined(a: Jobs, b: Jobs, q: Queues, ids: set<JobId>, q': Queues)
    requires Twins(a, b) && Joined(b, q, ids, q')
    ensures Joined(a, q, ids, q')
  {
    TwinJobs(a, b);
  }

  lemma TwinPulled(a: Jobs, b: Jobs, q: Queues, ids: seq<JobId>, q': Queues)
    requires Twins(a, b) && Pulled(b, q, ids, q')
    ensures Pulled(a, q, ids, q')
  {
    TwinJobs(a, b);
  }

  lemma ShiftEviction(jobs: Jobs, id: JobId)
    requires Small(jobs) && In(jobs, id, JobState.Preempted)
    ensures Shifts(jobs, AfterMove(Bump(jobs, id), id, JobState.Ready), {id}, {})
  {
    BumpIsTwin(jobs, id);
    TwinJobs(jobs, Bump(jobs, id));
    var after := AfterMove(Bump(jobs, id), id, JobState.Ready);
    forall x | Arenas.Live(jobs, x) ensures PlainJob(Arenas.Value(after, x))
        == PlainJob(NewState(Arenas.Value(jobs, x), x, map[id := JobState.Ready])) {}
    forall x ensures OnCpu(after, x) <==> OnCpu(jobs, x) && x != id {}
  }

  lemma EvictKeeps(l: Life, b: Binding, id: JobId, now: u64, l': Life, b': Binding, max: nat)
    requires Good(l, max) && Bound(l.jobs, b) && Small(l.jobs) && In(l.jobs, id, JobState.Preempted)
      && Unbinds(b, id, b')
    requires MoveStep(l.jobs, l.books, id, JobState.Ready, l'.books)
    requires l'.jobs == AfterMove(Bump(l.jobs, id), id, JobState.Ready) && l'.base == l.base
      && l'.log == l.log + [Requeued(id, now)] && l'.noted == l.noted
    ensures Good(l', max) && Bound(l'.jobs, b') && Strays(l'.jobs, b') == Strays(l.jobs, b)
  {
    EvictionLives(l, id, l'.books, now, max);
    ShiftEviction(l.jobs, id);
    UnbindKeeps(l.jobs, l'.jobs, b, id, b');
  }

  // ---- requeueing several ----

  ghost predicate AllOnCpu(jobs: Jobs, ids: seq<JobId>) {
    NoDuplicates(ids) && forall x :: x in ids ==> OnCpu(jobs, x)
  }

  /** Every job of `ids` is Ready again. */
  ghost function AfterRequeue(jobs: Jobs, ids: seq<JobId>): Jobs
    requires Small(jobs)
  {
    Restate(jobs, All(Elements(ids), JobState.Ready))
  }

  function RequeueRecords(ids: seq<JobId>, at: u64): (r: seq<Record>)
    ensures |r| == |ids|
  {
    seq(|ids|, i requires 0 <= i < |ids| => Requeued(ids[i], at))
  }

  lemma RequeueNone(jobs: Jobs)
    requires Small(jobs)
    ensures AfterRequeue(jobs, []) == jobs
  {
    assert All(Elements([]), JobState.Ready) == map[];
    RestateNothing(jobs);
  }

  lemma RequeueOneMore(jobs: Jobs, ids: seq<JobId>, k: nat, at: u64)
    requires Small(jobs) && k < |ids| && AllOnCpu(jobs, ids)
    ensures OnCpu(AfterRequeue(jobs, ids[..k]), ids[k])
    ensures AfterRequeue(jobs, ids[..k + 1]) == AfterMove(AfterRequeue(jobs, ids[..k]), ids[k], JobState.Ready)
    ensures RequeueRecords(ids[..k + 1], at) == RequeueRecords(ids[..k], at) + [Requeued(ids[k], at)]
  {
    NotYetVisited(ids, k);
    var x, before, now := ids[k], Elements(ids[..k]), Elements(ids[..k + 1]);
    assert ids[..k + 1] == ids[..k] + [x];
    assert now == before + {x};
    RestateTwice(jobs, All(before, JobState.Ready), map[x := JobState.Ready]);
    assert All(before, JobState.Ready) + map[x := JobState.Ready] == All(now, JobState.Ready);
    assert OnCpu(jobs, x);
  }

  lemma ShiftRequeues(jobs: Jobs, ids: seq<JobId>)
    requires Small(jobs) && AllOnCpu(jobs, ids)
    ensures Shifts(jobs, AfterRequeue(jobs, ids), Elements(ids), {})
  {}

  // ---- workers ----

  lemma EvictedOnCpu(jobs: Jobs, b: Binding, slot: SlotIndex)
    requires Bound(jobs, b)
    ensures AllOnCpu(jobs, JobsOn(b.running, slot))
  {
    BoundIsOk(jobs, b);
    FilterSlot(b.running, slot);
    forall x | x in JobsOn(b.running, slot) ensures OnCpu(jobs, x) { assert x in RunIds(b.running); }
  }

  /** The jobs on one slot, as strays. */
  ghost function Abandoned(running: seq<RunningJob>, slot: SlotIndex): iset<JobId> {
    iset x | x in JobsOn(running, slot)
  }

  lemma DetachBound(jobs: Jobs, b: Binding, slot: SlotIndex, b': Binding)
    requires Bound(jobs, b) && Small(jobs) && Detaches(b, slot, b') && AllOnCpu(jobs, JobsOn(b.running, slot))
    ensures Bound(AfterRequeue(jobs, JobsOn(b.running, slot)), b')
    ensures Strays(AfterRequeue(jobs, JobsOn(b.running, slot)), b') == Strays(jobs, b)
  {
    BoundIsOk(jobs, b);
    ShiftRequeues(jobs, JobsOn(b.running, slot));
    DetachKeeps(jobs, AfterRequeue(jobs, JobsOn(b.running, slot)), b, slot, b');
    BoundIsOk(AfterRequeue(jobs, JobsOn(b.running, slot)), b');
    FilterSlot(b.running, slot);
  }

  /** Dropping entries without requeueing leaves every one of them a stray. */
  lemma QuietDetach(jobs: Jobs, b: Binding, slot: SlotIndex, b': Binding)
    requires Bound(jobs, b) && Detaches(b, slot, b')
    ensures Bound(jobs, b') && Strays(jobs, b') == Strays(jobs, b) + Abandoned(b.running, slot)
  {
    BoundIsOk(jobs, b);
    DetachKeeps(jobs, jobs, b, slot, b');
    BoundIsOk(jobs, b');
    FilterSlot(b.running, slot);
    forall x | x in JobsOn(b.running, slot) ensures OnCpu(jobs, x) && x !in b.held { assert Located(b, x); }
  }

  lemma DrainBound(jobs: Jobs, b: Binding, slot: SlotIndex)
    requires Bound(jobs, b)
    ensures slot < |b.slots| ==> Bound(jobs, b.(slots := b.slots[slot := b.slots[slot].(capacity := ZERO)]))
  {
    BoundIsOk(jobs, b);
    if slot < |b.slots| {
      DrainKeeps(jobs, b, slot);
      BoundIsOk(jobs, b.(slots := b.slots[slot := b.slots[slot].(capacity := ZERO)]));
    }
  }

  lemma NamesCoverSlots(jobs: Jobs, b: Binding)
    requires Bound(jobs, b)
    ensures |b.names| == |b.slots|
    ensures forall s :: 0 <= s < |b.names| && b.names[s] == None ==> b.slots[s] == WorkerSlot(ZERO, ZERO)
  {
    BoundIsOk(jobs, b);
  }

  /** A worker called `name` has the first detached slot, or a new one when there is none; nothing else changed. */
  ghost predicate Attaches(b: Binding, name: string, capacity: Resources, slot: SlotIndex, b': Binding) {
    && b'.running == b.running && b'.held == b.held && slot < |b'.names| && b'.names[slot] == Some(name)
    && (if slot < |b.names| then
          && b.names[slot] == None && slot < |b.slots|
          && b'.names == b.names[slot := Some(name)] && b'.slots == b.slots[slot := WorkerSlot(capacity, ZERO)]
        else
          && slot == |b.names|
          && b'.names == b.names + [Some(name)] && b'.slots == b.slots + [WorkerSlot(capacity, ZERO)])
    && forall s :: 0 <= s < slot && s < |b.names| ==> b.names[s].Some?
  }

  lemma ReuseBound(jobs: Jobs, b: Binding, slot: SlotIndex, capacity: Resources, name: string)
    requires Bound(jobs, b) && slot < |b.slots| == |b.names| && b.names[slot] == None
    ensures Bound(jobs, b.(slots := b.slots[slot := b.slots[slot].(capacity := capacity)],
                           names := b.names[slot := Some(name)]))
  {
    BoundIsOk(jobs, b);
    ReuseKeeps(jobs, b, slot, capacity, name);
    BoundIsOk(jobs, b.(slots := b.slots[slot := b.slots[slot].(capacity := capacity)],
                       names := b.names[slot := Some(name)]));
  }

  lemma AttachBound(jobs: Jobs, b: Binding, capacity: Resources, name: string)
    requires Bound(jobs, b)
    ensures Bound(jobs, b.(slots := b.slots + [WorkerSlot(capacity, ZERO)], names := b.names + [Some(name)]))
  {
    BoundIsOk(jobs, b);
    AttachKeeps(jobs, b, capacity, name);
    BoundIsOk(jobs, b.(slots := b.slots + [WorkerSlot(capacity, ZERO)], names := b.names + [Some(name)]));
  }

  // ---- claims ----

  predicate Holds(slot: WorkerSlot, request: Resources) {
    slot.used.Plus(request).FitsWithin(slot.capacity)
  }

  /** `slot` can hold what `r` gives back where it was. */
  predicate CanMove(slots: seq<WorkerSlot>, r: RunningJob, slot: SlotIndex) {
    r.slot < |slots| && slot < |slots| && Holds(Uncharge(slots, r.slot, r.resources)[slot], r.resources)
  }

  lemma InRunIds(running: seq<RunningJob>, id: JobId)
    ensures id in RunIds(running) <==> exists r :: r in running && r.job == id
  {
    if id in RunIds(running) {
      var i :| 0 <= i < |running| && RunIds(running)[i] == id;
      assert running[i] in running;
    }
    if r :| r in running && r.job == id {
      var i :| 0 <= i < |running| && running[i] == r;
      assert RunIds(running)[i] == id;
    }
  }

  lemma {:induction false} OnSlotAt(running: seq<RunningJob>, pos: nat)
    requires pos < |running|
    ensures running[pos].job in JobsOn(running, running[pos].slot)
  {
    var n := |running| - 1;
    if pos < n { OnSlotAt(running[..n], pos); }
  }

  lemma {:induction false} OnSlotRuns(running: seq<RunningJob>, slot: SlotIndex, id: JobId)
    requires id in JobsOn(running, slot)
    ensures id in RunIds(running)
  {
    var n := |running| - 1;
    if id in JobsOn(running[..n], slot) {
      OnSlotRuns(running[..n], slot, id);
      var i :| 0 <= i < n && RunIds(running[..n])[i] == id;
      assert RunIds(running)[i] == id;
    } else {
      assert RunIds(running)[n] == id;
    }
  }

  /** Every job but those in `ids` is as it was. */
  ghost predicate SameBut(jobs: Jobs, jobs': Jobs, ids: seq<JobId>) {
    forall x :: x !in ids ==>
      (Arenas.Live(jobs, x) <==> Arenas.Live(jobs', x))
          && (Arenas.Live(jobs, x) ==> Arenas.Value(jobs', x) == Arenas.Value(jobs, x))
  }

  /** `id` aside, the same jobs are located. */
  ghost predicate SameElsewhere(b: Binding, b': Binding, id: JobId) {
    forall x :: x != id ==> (Located(b', x) <==> Located(b, x))
  }

  /** Of the `claimed` jobs the worker is to stop exactly those the engine knows nowhere. */
  ghost predicate Answered(b: Binding, claimed: seq<JobId>, kills: seq<JobId>) {
    (forall x :: x in kills ==> x in claimed) && forall x :: x in claimed ==> (x in kills <==> !Located(b, x))
  }

  lemma AnsweredNext(b: Binding, b': Binding, claimed: seq<JobId>, k: nat, kills: seq<JobId>, kill: bool)
    requires k < |claimed| && Answered(b, claimed[..k], kills) && SameElsewhere(b, b', claimed[k])
    requires (kill <==> !Located(b', claimed[k])) && (!kill ==> Located(b, claimed[k]))
    ensures Answered(b', claimed[..k + 1], if kill then kills + [claimed[k]] else kills)
  {
    var id, more := claimed[k], if kill then kills + [claimed[k]] else kills;
    assert claimed[..k + 1] == claimed[..k] + [id];
    forall x ensures x in more <==> x in kills || (kill && x == id) {
      if kill { assert more[|kills|] == id; }
    }
  }

  lemma SameButNext(start: Jobs, before: Jobs, jobs: Jobs, id: JobId, kills: seq<JobId>, kill: bool)
    requires Small(before) && SameBut(start, before, kills)
    requires jobs == before || (kill && Arenas.Live(before, id) && jobs == AfterMove(before, id, JobState.Ready))
    ensures SameBut(start, jobs, if kill then kills + [id] else kills)
  {
    if jobs != before {
      MovedBut(before, id, JobState.Ready, kills, start);
    } else if kill {
      forall x | x !in kills + [id] ensures x !in kills { assert x in kills ==> x in kills + [id]; }
    }
  }

  lemma MovedBut(jobs: Jobs, id: JobId, state: JobState, ids: seq<JobId>, start: Jobs)
    requires Small(jobs) && Arenas.Live(jobs, id) && SameBut(start, jobs, ids)
    ensures SameBut(start, AfterMove(jobs, id, state), ids + [id])
  {
    forall x | x !in ids + [id] ensures x !in ids && x != id {
      assert x in ids ==> x in ids + [id];
      assert (ids + [id])[|ids|] == id;
    }
  }

  lemma HeldRuns(jobs: Jobs, b: Binding, id: JobId)
    requires Bound(jobs, b) && id in b.held
    ensures In(jobs, id, JobState.Running) && id !in RunIds(b.running)
  {
    BoundIsOk(jobs, b);
  }

  lemma UnboundElsewhere(jobs: Jobs, b: Binding, id: JobId, b': Binding)
    requires Bound(jobs, b) && Unbinds(b, id, b')
    ensures SameElsewhere(b, b', id) && !Located(b', id)
  {
    BoundIsOk(jobs, b);
    UnbindsOne(b, id, b');
  }

  lemma AdoptBound(jobs: Jobs, b: Binding, pos: nat, slot: SlotIndex, ends: u64, b': Binding)
    requires Bound(jobs, b) && pos < |b.held| && Arenas.Live(jobs, b.held[pos]) && Adopts(jobs, b, pos, slot, ends, b')
    requires slot < |b.names| && b.names[slot].Some?
    ensures Bound(jobs, b') && Strays(jobs, b') == Strays(jobs, b) && SameElsewhere(b, b', b.held[pos])
  {
    BoundIsOk(jobs, b);
    AdoptKeeps(jobs, b, pos, slot, ends, b');
    BoundIsOk(jobs, b');
    SwapRemoveMembers(b.held, pos);
    RunIdsConcat(b.running, [b'.running[|b.running|]]);
  }

  lemma RebindBound(jobs: Jobs, b: Binding, pos: nat, slot: SlotIndex, b': Binding)
    requires Bound(jobs, b) && Rebinds(b, pos, slot, b') && slot < |b.names| && b.names[slot].Some?
    ensures Bound(jobs, b') && Strays(jobs, b') == Strays(jobs, b) && SameElsewhere(b, b', b.running[pos].job)
    ensures b.running[pos].job in JobsOn(b'.running, slot)
  {
    BoundIsOk(jobs, b);
    RebindKeeps(jobs, b, pos, slot, b');
    BoundIsOk(jobs, b');
    assert RunIds(b'.running) == RunIds(b.running);
    OnSlotAt(b'.running, pos);
  }

  lemma RequeueKeeps(l: Life, b: Binding, id: JobId, now: u64, l': Life, b': Binding, max: nat)
    requires Good(l, max) && Bound(l.jobs, b) && Small(l.jobs) && OnCpu(l.jobs, id) && Unbinds(b, id, b')
    requires MoveStep(l.jobs, l.books, id, JobState.Ready, l'.books)
    requires l'.jobs == AfterMove(l.jobs, id, JobState.Ready) && l'.base == l.base
      && l'.log == l.log + [Requeued(id, now)] && l'.noted == l.noted
    ensures Good(l', max) && Bound(l'.jobs, b') && Strays(l'.jobs, b') == Strays(l.jobs, b)
  {
    RequeueLives(l, id, now, l'.books, max);
    ShiftRequeue(l.jobs, id);
    UnbindKeeps(l.jobs, l'.jobs, b, id, b');
  }

  // ---- cycles ----

  lemma GoodAsks(l: Life, b: Binding, max: nat)
    requires Good(l, max) && Bound(l.jobs, b)
    ensures ReadyNonZero(l.jobs) && Sound(b.slots)
  {
    GoodIsWhole(l, max);
    BoundIsOk(l.jobs, b);
    forall x | In(l.jobs, x, JobState.Ready) ensures Arenas.Value(l.jobs, x).request != ZERO {
      assert ExtraOk(Arenas.Value(l.jobs, x), x in l.noted, max);
    }
  }

  lemma CycleKeepsAll(table: seq<nat>, l: Life, b: Binding, current: seq<Ledger>, ds: seq<Decision>, now: u64,
                      quantum: nat, l': Life, b': Binding, max: nat)
    requires Good(l, max) && Bound(l.jobs, b) && Small(l.jobs) && ReadyNonZero(l.jobs)
    requires CycleStep(table, l.jobs, l.books, current, JobsOf(ds), now, quantum, l'.jobs, l'.books)
    requires l'.base == l.base && l'.log == l.log + DispatchRecords(JobsOf(ds), now) && l'.noted == l.noted
    requires Starts(b, l.jobs, ds, now, b') && Sound(b'.slots)
    ensures Good(l', max) && Bound(l'.jobs, b') && l'.jobs == AfterDispatch(l.jobs, JobsOf(ds))
    ensures Strays(l'.jobs, b') == Strays(l.jobs, b)
  {
    var ids := JobsOf(ds);
    CycleLives(table, l, current, ids, now, quantum, l'.jobs, l'.books, max);
    CycleIsDispatch(table, l.jobs, l.books, current, ids, now, quantum, l'.jobs, l'.books);
    ShiftDispatch(l.jobs, ids);
    BoundIsOk(l.jobs, b);
    forall i | 0 <= i < |ds| ensures Arenas.Value(l.jobs, ds[i].job).request != ZERO { assert ids[i] in ids; }
    StartKeeps(l.jobs, l'.jobs, b, ds, now, b');
    BoundIsOk(l'.jobs, b');
    StartedLocated(l.jobs, b, ds, now, b');
  }

  /** What one cycle did: whom it looked at, what it decided about them, what runs now, and that whoever it could not
      place keeps its reservation. */
  ghost predicate CycleOutcome(table: seq<nat>, plan: Plan, jobs: Jobs, b: Books, slots: seq<WorkerSlot>,
                               running: seq<RunningJob>, now: u64, config: Config, slots': seq<WorkerSlot>,
                               running': seq<RunningJob>) {
    && Shortlist(table, jobs, b, now, config, plan.candidates)
    && Planned(plan, jobs, slots, running, now, config.budget, slots')
    && AllLive(plan.Decisions(), jobs) && running' == running + Started(plan.Decisions(), jobs, now)
    && (plan.reservation.Some? ==>
          && plan.HasHead(jobs)
          && MetBy(plan.HeadRequest(jobs), slots', running', now, plan.reservation.value))
  }

  /** Sealed: `Unlocked` in scope unfolds it. */
  ghost predicate Scheduled(table: seq<nat>, plan: Plan, jobs: Jobs, b: Books, slots: seq<WorkerSlot>,
                            running: seq<RunningJob>, now: u64, config: Config, slots': seq<WorkerSlot>,
                            running': seq<RunningJob>) {
    forall k: int :: Unlocked(k) ==>
      CycleOutcome(table, plan, jobs, b, slots, running, now, config, slots', running')
  }

  /** The decisions were charged in order and overcommit nothing. */
  ghost predicate Placed(ds: seq<Decision>, jobs: Jobs, slots: seq<WorkerSlot>, slots': seq<WorkerSlot>) {
    AllLive(ds, jobs) && ChargeAll(slots, ds, jobs) == Some(slots') && Sound(slots')
  }

  lemma CycleScheduled(table: seq<nat>, plan: Plan, jobs: Jobs, b: Books, slots: seq<WorkerSlot>,
                       running: seq<RunningJob>, now: u64, config: Config, slots': seq<WorkerSlot>)
    requires Shortlisted(table, jobs, b, now, config, plan.candidates)
    requires var planned := Planned(plan, jobs, slots, running, now, config.budget, slots'); planned
    ensures Placed(plan.Decisions(), jobs, slots, slots')
    ensures Scheduled(table, plan, jobs, b, slots, running, now, config, slots',
                      running + Started(plan.Decisions(), jobs, now))
  {
    PlanCharges(plan, jobs, slots, running, now, config.budget, slots');
    assert Unlocked(0);
    if plan.reservation.Some? { PlanKeepsReservation(plan, jobs, slots, running, now, config.budget, slots'); }
  }

  lemma HeadIsCandidate(table: seq<nat>, plan: Plan, jobs: Jobs, b: Books, slots: seq<WorkerSlot>,
                        running: seq<RunningJob>, now: u64, config: Config, slots': seq<WorkerSlot>,
                        running': seq<RunningJob>)
    requires Scheduled(table, plan, jobs, b, slots, running, now, config, slots', running')
    ensures plan.head.Some? ==> plan.head.value < |plan.candidates|
  {
    assert Unlocked(0);
  }

  lemma StartedLocated(jobs: Jobs, b: Binding, ds: seq<Decision>, now: u64, b': Binding)
    requires Starts(b, jobs, ds, now, b')
    ensures forall x :: Located(b', x) <==> Located(b, x) || x in JobsOf(ds)
  {
    RunIdsConcat(b.running, Started(ds, jobs, now));
    assert RunIds(Started(ds, jobs, now)) == JobsOf(ds);
  }

  lemma CycleIsDispatch(table: seq<nat>, jobs: Jobs, b: Books, current: seq<Ledger>, ids: seq<JobId>, now: u64,
                        quantum: nat, jobs': Jobs, b': Books)
    requires CycleStep(table, jobs, b, current, ids, now, quantum, jobs', b')
    ensures Small(jobs) && AllReady(jobs, ids) && jobs' == AfterDispatch(jobs, ids) && b'.done == b.done
    ensures forall x :: x in ids ==> !OnCpu(jobs, x)
  {
    assert Unlocked(0);
  }

  // ---- telling jobs to stop ----

  ghost function AfterPreempt(jobs: Jobs, ids: seq<JobId>): Jobs
    requires Small(jobs)
  {
    Restate(jobs, All(Elements(ids), JobState.Preempted))
  }

  /** Different bound jobs that are Running and not immune yet. */
  ghost predicate Evictable(jobs: Jobs, b: Binding, ids: seq<JobId>, max: nat) {
    && NoDuplicates(ids)
    && forall x :: x in ids ==>
        In(jobs, x, JobState.Running) && x in RunIds(b.running) && Arenas.Value(jobs, x).preemptions < max
  }

  function PreemptRecords(ids: seq<JobId>, at: u64): (r: seq<Record>)
    ensures |r| == |ids|
  {
    seq(|ids|, i requires 0 <= i < |ids| => Record.Preempted(ids[i], at))
  }

  function EvictedJobs(evictions: seq<Eviction>): (r: seq<JobId>)
    ensures |r| == |evictions| && forall i :: 0 <= i < |r| ==> r[i] == evictions[i].job
  {
    seq(|evictions|, i requires 0 <= i < |evictions| => evictions[i].job)
  }

  lemma PreemptNone(jobs: Jobs)
    requires Small(jobs)
    ensures AfterPreempt(jobs, []) == jobs
  {
    assert All(Elements([]), JobState.Preempted) == map[];
    RestateNothing(jobs);
  }

  lemma PreemptOneMore(jobs: Jobs, b: Binding, ids: seq<JobId>, k: nat, max: nat, at: u64)
    requires Small(jobs) && k < |ids| && Evictable(jobs, b, ids, max)
    ensures var before := AfterPreempt(jobs, ids[..k]);
            && ids[k] in RunIds(b.running) && In(before, ids[k], JobState.Running)
            && Arenas.Value(before, ids[k]).preemptions < max
            && AfterPreempt(jobs, ids[..k + 1]) == AfterMove(before, ids[k], JobState.Preempted)
    ensures PreemptRecords(ids[..k + 1], at) == PreemptRecords(ids[..k], at) + [Record.Preempted(ids[k], at)]
  {
    NotYetVisited(ids, k);
    var x, before, now := ids[k], Elements(ids[..k]), Elements(ids[..k + 1]);
    assert ids[..k + 1] == ids[..k] + [x];
    assert now == before + {x};
    assert x in ids;
    RestateTwice(jobs, All(before, JobState.Preempted), map[x := JobState.Preempted]);
    assert All(before, JobState.Preempted) + map[x := JobState.Preempted] == All(now, JobState.Preempted);
  }

  lemma PreemptKeepsAll(l: Life, b: Binding, id: JobId, now: u64, l': Life, max: nat)
    requires Good(l, max) && Bound(l.jobs, b) && Small(l.jobs) && In(l.jobs, id, JobState.Running)
    requires id in RunIds(b.running) && Arenas.Value(l.jobs, id).preemptions < max
    requires l' == Lives.Life(AfterMove(l.jobs, id, JobState.Preempted), l.books, l.base,
                              l.log + [Record.Preempted(id, now)], l.noted)
    ensures Good(l', max) && Bound(l'.jobs, b) && Strays(l'.jobs, b) == Strays(l.jobs, b)
  {
    PreemptLives(l, id, now, max);
    BoundIsOk(l.jobs, b);
    PreemptStays(l.jobs, b, id);
    BoundIsOk(l'.jobs, b);
  }

  /** The arena once the decisions run and the victims are told to stop. */
  ghost function AfterPlacing(jobs: Jobs, plan: Plan, evictions: seq<Eviction>): Jobs
    requires Small(jobs)
  {
    AfterPreempt(AfterDispatch(jobs, JobsOf(plan.Decisions())), EvictedJobs(evictions))
  }

  lemma Appended(log: seq<Record>, a: seq<Record>, b: seq<Record>)
    ensures log + a + b == log + (a + b) && log <= log + (a + b)
  {}

  ghost function PlacingRecords(plan: Plan, evictions: seq<Eviction>, now: u64): seq<Record> {
    DispatchRecords(JobsOf(plan.Decisions()), now) + PreemptRecords(EvictedJobs(evictions), now)
  }

  /** What a cycle's unplaced head has evicted for it. */
  ghost predicate EvictedFor(plan: Plan, jobs: Jobs, running: seq<RunningJob>, slots: seq<WorkerSlot>, now: u64,
                             config: Config, evictions: seq<Eviction>) {
    if plan.head.Some? && plan.head.value < |plan.candidates| && Arenas.Live(jobs, plan.candidates[plan.head.value].job)
    then BestPlan(jobs, Arenas.Value(jobs, plan.candidates[plan.head.value].job), running, slots, now, config,
                  evictions)
    else evictions == []
  }

  /** The evictions are the cheapest offer any slot makes, or none when preemption may not act or cannot help. */
  ghost predicate BestPlan(jobs: Jobs, head: Job, running: seq<RunningJob>, slots: seq<WorkerSlot>, now: u64,
                           config: Config, evictions: seq<Eviction>) {
    if MayPlan(jobs, head, running, config)
    then exists best :: Chosen(jobs, head, running, slots, now, config, best, evictions)
    else evictions == []
  }

  ghost predicate Chosen(jobs: Jobs, head: Job, running: seq<RunningJob>, slots: seq<WorkerSlot>, now: u64,
                         config: Config, best: Option<(SlotIndex, Offer)>, evictions: seq<Eviction>) {
    && BestBelow(jobs, head, config.maxPreemptions, running, slots, |slots|, now, best)
    && evictions == if best.Some? then EvictionsOf(best.value.0, best.value.1.vs[..best.value.1.count]) else []
  }

  lemma RunnersDiffer(jobs: Jobs, b: Binding)
    requires Bound(jobs, b)
    ensures NoDuplicates(RunIds(b.running))
  {
    BoundIsOk(jobs, b);
  }

  /** No job is offered up twice. */
  lemma {:induction false} VictimsDiffer(jobs: Jobs, head: Job, max: nat, running: seq<RunningJob>, slot: SlotIndex)
    requires NoDuplicates(RunIds(running))
    ensures DifferentJobs(VictimsOn(jobs, head, max, running, slot))
  {
    if running != [] {
      var n := |running| - 1;
      var front, last := running[..n], running[n];
      assert RunIds(front) == RunIds(running)[..n];
      VictimsDiffer(jobs, head, max, front, slot);
      var rest := VictimsOn(jobs, head, max, front, slot);
      forall i | 0 <= i < |rest| ensures rest[i].job != last.job {
        assert rest[i] in rest;
        VictimsAreEligible(jobs, head, max, front, slot, rest[i]);
        var r :| r in front && rest[i].job == r.job;
        var k :| 0 <= k < n && front[k] == r;
        assert RunIds(running)[k] != RunIds(running)[n];
      }
    }
  }

  lemma PlanEvictable(jobs: Jobs, b: Binding, head: Job, now: u64, config: Config, best: Option<(SlotIndex, Offer)>,
                      evictions: seq<Eviction>)
    requires NoDuplicates(RunIds(b.running))
    requires best.Some? ==> BestBelow(jobs, head, config.maxPreemptions, b.running, b.slots, |b.slots|, now, best)
    requires evictions == if best.Some? then EvictionsOf(best.value.0, best.value.1.vs[..best.value.1.count]) else []
    ensures Evictable(jobs, b, EvictedJobs(evictions), config.maxPreemptions)
  {
    var ids := EvictedJobs(evictions);
    if best.Some? {
      VictimsDiffer(jobs, head, config.maxPreemptions, b.running, best.value.0);
      PermutedDiffer(VictimsOn(jobs, head, config.maxPreemptions, b.running, best.value.0), best.value.1.vs);
    }
    forall x | x in ids
      ensures In(jobs, x, JobState.Running) && x in RunIds(b.running)
        && Arenas.Value(jobs, x).preemptions < config.maxPreemptions
    {
      var i :| 0 <= i < |ids| && ids[i] == x;
      var o, slot := best.value.1, best.value.0;
      var v := o.vs[..o.count][i];
      assert v in multiset(o.vs);
      assert v in VictimsOn(jobs, head, config.maxPreemptions, b.running, slot);
      VictimsAreEligible(jobs, head, config.maxPreemptions, b.running, slot, v);
      InRunIds(b.running, x);
    }
  }

  // ---- retention ----

  /** No slot is about to run out of generations. */
  ghost predicate Young(jobs: Jobs) { forall x :: Arenas.Live(jobs, x) ==> x.generation < U32_MAX }

  lemma YoungDispatch(jobs: Jobs, ids: seq<JobId>)
    requires Small(jobs) && Young(jobs)
    ensures Young(AfterDispatch(jobs, ids))
  {}

  lemma YoungPreempt(jobs: Jobs, ids: seq<JobId>)
    requires Small(jobs) && Young(jobs)
    ensures Young(AfterPreempt(jobs, ids))
  {}

  lemma NotedPopped(terminal: seq<(u64, JobId)>)
    requires terminal != []
    ensures terminal[0].1 in Noted(terminal)
    ensures Noted(terminal[1..]) <= Noted(terminal) && Noted(terminal) <= Noted(terminal[1..]) + {terminal[0].1}
  {
    var rest := terminal[1..];
    forall x | x in Noted(rest) ensures x in Noted(terminal) {
      var i :| 0 <= i < |rest| && rest[i].1 == x;
      assert terminal[i + 1].1 == x;
    }
    forall x | x in Noted(terminal) && x != terminal[0].1 ensures x in Noted(rest) {
      var i :| 0 <= i < |terminal| && terminal[i].1 == x;
      assert rest[i - 1].1 == x;
    }
  }

  /** `id` is gone from the arena, if it was there. */
  function Forget(jobs: Jobs, id: JobId): Jobs { if Arenas.Live(jobs, id) then Arenas.Remove(jobs, id) else jobs }

  function ForgetRecord(jobs: Jobs, id: JobId): seq<Record> { if Arenas.Live(jobs, id) then [Forgotten(id)] else [] }

  /** The jobs of the first `n` notes are forgotten, in order. */
  function AfterForget(jobs: Jobs, queue: seq<(u64, JobId)>, n: nat): Jobs
    requires n <= |queue|
  {
    if n == 0 then jobs else Forget(AfterForget(jobs, queue, n - 1), queue[n - 1].1)
  }

  function ForgetRecords(jobs: Jobs, queue: seq<(u64, JobId)>, n: nat): seq<Record>
    requires n <= |queue|
  {
    if n == 0 then []
    else ForgetRecords(jobs, queue, n - 1) + ForgetRecord(AfterForget(jobs, queue, n - 1), queue[n - 1].1)
  }

  /** How many of the oldest notes have outlived the window. */
  function Overdue(queue: seq<(u64, JobId)>, now: u64, retain: u64): (n: nat)
    ensures n <= |queue| && forall i :: 0 <= i < n ==> Monus(now, queue[i].0) >= retain
    ensures n < |queue| ==> Monus(now, queue[n].0) < retain
  {
    if queue == [] || Monus(now, queue[0].0) < retain then 0 else 1 + Overdue(queue[1..], now, retain)
  }

  lemma {:induction false} OverdueFound(queue: seq<(u64, JobId)>, n: nat, now: u64, retain: u64)
    requires n <= |queue| && forall i :: 0 <= i < n ==> Monus(now, queue[i].0) >= retain
    requires n < |queue| ==> Monus(now, queue[n].0) < retain
    ensures n == Overdue(queue, now, retain)
  {
    if n > 0 { OverdueFound(queue[1..], n - 1, now, retain); }
  }

  /** Exactly the notes that have outlived the window are gone, and their jobs, logged, with them. */
  ghost predicate Expires(jobs: Jobs, log: seq<Record>, queue: seq<(u64, JobId)>, now: u64, retain: u64, jobs': Jobs,
                          log': seq<Record>, queue': seq<(u64, JobId)>) {
    var n := Overdue(queue, now, retain);
    && queue' == queue[n..] && jobs' == AfterForget(jobs, queue, n) && log' == log + ForgetRecords(jobs, queue, n)
  }

  lemma ExpiresAll(jobs: Jobs, log: seq<Record>, queue: seq<(u64, JobId)>, n: nat, now: u64, retain: u64, jobs': Jobs,
                   log': seq<Record>, queue': seq<(u64, JobId)>)
    requires Forgetting(jobs, log, queue, n, now, retain, jobs', queue', log')
    requires queue' != [] ==> Monus(now, queue'[0].0) < retain
    ensures Expires(jobs, log, queue, now, retain, jobs', log', queue')
  {
    OverdueFound(queue, n, now, retain);
  }

  /** `n` notes into forgetting. */
  ghost predicate Forgetting(jobs: Jobs, log: seq<Record>, queue: seq<(u64, JobId)>, n: nat, now: u64, retain: u64,
                             jobs': Jobs, queue': seq<(u64, JobId)>, log': seq<Record>) {
    && n <= |queue| && queue' == queue[n..] && (forall i :: 0 <= i < n ==> Monus(now, queue[i].0) >= retain)
    && jobs' == AfterForget(jobs, queue, n) && log' == log + ForgetRecords(jobs, queue, n)
  }

  lemma ForgetNext(jobs: Jobs, log: seq<Record>, queue: seq<(u64, JobId)>, n: nat, now: u64, retain: u64,
                   mid: Jobs, rest: seq<(u64, JobId)>, records: seq<Record>)
    requires var going := Forgetting(jobs, log, queue, n, now, retain, mid, rest, records); going
    requires rest != [] && Monus(now, rest[0].0) >= retain
    ensures Forgetting(jobs, log, queue, n + 1, now, retain, Forget(mid, rest[0].1), rest[1..],
                       records + ForgetRecord(mid, rest[0].1))
  {
    assert rest[0] == queue[n] && rest[1..] == queue[n + 1..];
  }

  /** Forgetting takes exactly the noted jobs, and leaves the others as they were. */
  lemma {:induction false} ForgetTakesNoted(jobs: Jobs, queue: seq<(u64, JobId)>, n: nat)
    requires n <= |queue| && StoreOk(jobs) && Young(jobs)
    ensures StoreOk(AfterForget(jobs, queue, n)) && Young(AfterForget(jobs, queue, n))
    ensures forall x :: Arenas.Live(AfterForget(jobs, queue, n), x) <==>
              Arenas.Live(jobs, x) && x !in Noted(queue[..n])
    ensures forall x :: Arenas.Live(AfterForget(jobs, queue, n), x) ==>
              Arenas.Value(AfterForget(jobs, queue, n), x) == Arenas.Value(jobs, x)
  {
    if n > 0 {
      ForgetTakesNoted(jobs, queue, n - 1);
      NotedSlice(queue, n - 1);
      var before := AfterForget(jobs, queue, n - 1);
      if Arenas.Live(before, queue[n - 1].1) { Arenas.RemoveRetires(before, queue[n - 1].1); }
    }
  }

  lemma NotedSlice(queue: seq<(u64, JobId)>, n: nat)
    requires n < |queue|
    ensures Noted(queue[..n + 1]) == Noted(queue[..n]) + {queue[n].1}
  {
    assert queue[..n + 1] == queue[..n] + [(queue[n].0, queue[n].1)];
    NotedOneMore(queue[..n], queue[n].0, queue[n].1);
  }

  lemma ShiftForget(jobs: Jobs, id: JobId)
    requires StoreOk(jobs) && Arenas.Live(jobs, id) && StateOf(jobs, id).IsTerminal()
    ensures Shifts(jobs, Arenas.Remove(jobs, id), {}, {})
  {
    Arenas.RemoveRetires(jobs, id);
  }

  lemma ForgetKeeps(l: Life, b: Binding, id: JobId, noted': set<JobId>, max: nat)
    requires Good(l, max) && Bound(l.jobs, b) && Arenas.Live(l.jobs, id) && id in l.noted && id.generation < U32_MAX
    requires noted' <= l.noted && l.noted <= noted' + {id}
    ensures Good(Lives.Life(Arenas.Remove(l.jobs, id), l.books, l.base, l.log + [Forgotten(id)], noted'), max)
    ensures Bound(Arenas.Remove(l.jobs, id), b) && Strays(Arenas.Remove(l.jobs, id), b) == Strays(l.jobs, b)
    ensures forall x :: Arenas.Live(Arenas.Remove(l.jobs, id), x) <==> Arenas.Live(l.jobs, x) && x != id
  {
    ForgettingLives(l, id, noted', max);
    GoodIsWhole(l, max);
    assert ExtraOk(Arenas.Value(l.jobs, id), true, max);
    Arenas.RemoveRetires(l.jobs, id);
    ShiftForget(l.jobs, id);
    StayBound(l.jobs, Arenas.Remove(l.jobs, id), b);
  }

  // ---- reconciliation ----

  /** When jobs found waiting at `now` are given up. */
  function Deadline(until: Option<u64>, now: u64, window: u64): u64 {
    if until.Some? then until.value else SaturatingAddTime(now, window)
  }

  /** The time of a tick, and what it is measured against. */
  datatype Clock = Clock(until: Option<u64>, now: u64, retain: u64, window: u64)

  predicate Unclaimed(held: seq<JobId>, c: Clock) { held != [] && c.now >= Deadline(c.until, c.now, c.window) }

  /** All held jobs are requeued, and logged, exactly when their deadline has come; until then it stands. */
  ghost predicate Reconciles(jobs: Jobs, log: seq<Record>, held: seq<JobId>, c: Clock, jobs': Jobs, log': seq<Record>,
                             held': seq<JobId>, until': Option<u64>) {
    if Unclaimed(held, c) then
      && Small(jobs) && held' == [] && until' == None
      && jobs' == AfterRequeue(jobs, held) && log' == log + RequeueRecords(held, c.now)
    else
      && jobs' == jobs && log' == log && held' == held
      && until' == if held == [] then None else Some(Deadline(c.until, c.now, c.window))
  }

  /** What the settling half of a tick leaves: retention first, reconciliation after it. Sealed: `Unlocked` in scope
      unfolds it. */
  ghost predicate Settles(jobs: Jobs, log: seq<Record>, queue: seq<(u64, JobId)>, held: seq<JobId>, c: Clock,
                          jobs': Jobs, log': seq<Record>, queue': seq<(u64, JobId)>, held': seq<JobId>,
                          until': Option<u64>) {
    forall k: int :: Unlocked(k) ==>
      exists kept: Jobs, records: seq<Record> ::
        && Expires(jobs, log, queue, c.now, c.retain, kept, records, queue')
        && Reconciles(kept, records, held, c, jobs', log', held', until')
  }

  lemma ThenReconciled(jobs: Jobs, log: seq<Record>, queue: seq<(u64, JobId)>, held: seq<JobId>, c: Clock, kept: Jobs,
                       records: seq<Record>, jobs': Jobs, log': seq<Record>, queue': seq<(u64, JobId)>,
                       held': seq<JobId>, until': Option<u64>)
    requires var expires, reconciles := Expires(jobs, log, queue, c.now, c.retain, kept, records, queue'),
             Reconciles(kept, records, held, c, jobs', log', held', until'); expires && reconciles
    ensures Settles(jobs, log, queue, held, c, jobs', log', queue', held', until')
  {}

  lemma HeldOnCpu(jobs: Jobs, b: Binding)
    requires Bound(jobs, b)
    ensures AllOnCpu(jobs, b.held)
  {
    BoundIsOk(jobs, b);
  }

  lemma UnholdAll(jobs: Jobs, b: Binding, b': Binding)
    requires Bound(jobs, b) && Small(jobs) && AllOnCpu(jobs, b.held) && b' == b.(held := [])
    ensures Bound(AfterRequeue(jobs, b.held), b') && Strays(AfterRequeue(jobs, b.held), b') == Strays(jobs, b)
  {
    BoundIsOk(jobs, b);
    var after := AfterRequeue(jobs, b.held);
    ShiftRequeues(jobs, b.held);
    forall i | 0 <= i < |b.running|
      ensures Arenas.Live(after, b.running[i].job)
        && b.running[i].resources == Arenas.Value(after, b.running[i].job).request
    {
      assert RunIds(b.running)[i] in RunIds(b.running);
      EntryKept(jobs, after, Elements(b.held), b, b.running[i]);
    }
    BoundIsOk(after, b');
  }

  // ---- recovery ----

  lemma MoveDone(jobs: Jobs, b: Books, id: JobId, state: JobState, b': Books)
    requires MoveStep(jobs, b, id, state, b')
    ensures b'.done == b.done
  {
    assert Unlocked(0);
  }

  lemma SubmissionDone(before: Jobs, b: Books, id: JobId, r: Readiness, b': Books)
    requires SubmissionStep(before, b, id, r, b')
    ensures b'.done == b.done
  {
    assert Unlocked(0);
  }

  /** Every eviction counter is below `max`. */
  ghost predicate Bounded(jobs: Jobs, max: nat) {
    forall x :: Arenas.Live(jobs, x) ==> Arenas.Value(jobs, x).preemptions < max
  }

  /** The state a replayed move leads to. */
  function MoveOf(r: Record): JobState {
    if r.Dispatched? then JobState.Running else if r.Preempted? then JobState.Preempted else JobState.Ready
  }

  lemma MoveReplayed(l: Life, r: Record, l': Life, max: nat)
    requires Good(l, max) && Small(l.jobs) && Bounded(l.jobs, max) && (r.Dispatched? || r.Requeued? || r.Preempted?)
    requires Fits(l.Durable(), r) && Apply(l.Durable(), r).Some?
    requires l'.jobs == AfterMove(l.jobs, r.id, MoveOf(r)) && MoveStep(l.jobs, l.books, r.id, MoveOf(r), l'.books)
    requires l'.base == l.base && l'.log == l.log + [r] && l'.noted == l.noted
    ensures Good(l', max) && l'.Durable() == Apply(l.Durable(), r).value
  {
    MoveDone(l.jobs, l.books, r.id, MoveOf(r), l'.books);
    MoveLives(l, r.id, MoveOf(r), r, l'.books, max);
  }

  lemma EndReplayed(l: Life, id: JobId, state: JobState, r: Record, l': Life, cascade: seq<JobId>, max: nat)
    requires Good(l, max) && Small(l.jobs) && Open(l.jobs, id) && EndsAs(l.jobs, id, state, r)
    requires TerminationStep(l.jobs, l.books, id, state, l'.jobs, l'.books, cascade)
    requires l'.base == l.base && l'.log == l.log + [r] && l'.noted == l.noted + Elements([id] + cascade)
    ensures Good(l', max) && l'.Durable() == Apply(l.Durable(), r).value
  {
    ApplyEnded(l.Durable(), id, state, r);
    TerminationLives(l, id, state, l'.jobs, l'.books, cascade, r, max);
    assert Elements([id] + cascade) == {id} + Elements(cascade);
    assert l'.noted == l.noted + {id} + Elements(cascade);
  }

  lemma ForgettingReplayed(l: Life, id: JobId, max: nat)
    requires Good(l, max) && Small(l.jobs) && Fits(l.Durable(), Forgotten(id))
    ensures Good(Lives.Life(Arenas.Remove(l.jobs, id), l.books, l.base, l.log + [Forgotten(id)], l.noted), max)
    ensures Apply(l.Durable(), Forgotten(id)) == Some(Replay.Durable(Arenas.Remove(l.jobs, id), l.books.done))
  {
    GoodIsWhole(l, max);
    assert ExtraOk(Arenas.Value(l.jobs, id), id in l.noted, max);
    ForgettingLives(l, id, l.noted, max);
  }

  /** `s` is where the first `k` records of a lawful, replayable log lead. */
  ghost predicate ReplayedTo(base: Durable, records: seq<Record>, k: nat, s: Durable) {
    && Small(base.jobs) && LawfulLog(base, records) && ReplayFrom(base, records).Some?
    && k <= |records| && ReplayFrom(base, records[..k]) == Some(s)
  }

  lemma OneRecordMore(records: seq<Record>, k: nat)
    requires k < |records|
    ensures records[..k + 1] == records[..k] + [records[k]]
  {}

  lemma ReplayAt(base: Durable, records: seq<Record>, k: nat, s: Durable)
    requires var replayed := ReplayedTo(base, records, k, s); replayed && k < |records|
    ensures Small(s.jobs) && Fits(s, records[k]) && Apply(s, records[k]).Some?
    ensures ReplayedTo(base, records, k + 1, Apply(s, records[k]).value)
  {
    LawfulPrefix(base, records, k);
    PrefixReplays(base, records, k + 1);
    var more := records[..k + 1];
    assert more[..|more| - 1] == records[..k] && more[|more| - 1] == records[k];
  }

  lemma RestateBounded(jobs: Jobs, states: map<JobId, JobState>, max: nat)
    requires Small(jobs) && Bounded(jobs, max)
    ensures Bounded(Restate(jobs, states), max)
  {}

  /** Replay never counts an eviction. */
  lemma ApplyBounded(s: Durable, r: Record, max: nat)
    requires Small(s.jobs) && Bounded(s.jobs, max) && Apply(s, r).Some? && Fits(s, r) && max > 0
    ensures Bounded(Apply(s, r).value.jobs, max)
  {
    match r
    case Submitted(id, job) => InsertAdmits(s.jobs,
        job.(state := StateFor(Classification(s.jobs, id, job.deps).readiness)));
    case Dispatched(id, _) => RestateBounded(s.jobs, map[id := JobState.Running], max);
    case Requeued(id, _) => RestateBounded(s.jobs, map[id := JobState.Ready], max);
    case Preempted(id, _) => RestateBounded(s.jobs, map[id := JobState.Preempted], max);
    case Completed(id, _) => RestateBounded(s.jobs,
        All(Promoted(s.jobs, s.done, id), JobState.Ready)[id := JobState.Completed], max);
    case Failed(id, _) => RestateBounded(s.jobs,
        All(Lifecycle.Doomed(s.jobs, id), JobState.Cancelled)[id := JobState.Failed], max);
    case Cancelled(id, _) => RestateBounded(s.jobs,
        All(Lifecycle.Doomed(s.jobs, id), JobState.Cancelled)[id := JobState.Cancelled], max);
    case Forgotten(id) => RemoveBounded(s.jobs, id, max);
  }

  lemma RemoveBounded(jobs: Jobs, id: JobId, max: nat)
    requires Bounded(jobs, max) && Arenas.Live(jobs, id)
    ensures Bounded(Arenas.Remove(jobs, id), max)
  {
    var after := Arenas.Remove(jobs, id);
    forall x | Arenas.Live(after, x) ensures Arenas.Value(after, x).preemptions < max {
      assert Arenas.Live(jobs, x) && Arenas.Value(after, x) == Arenas.Value(jobs, x);
    }
  }

  function IdsIn(slots: seq<Arenas.Slot<Job>>, state: JobState): seq<JobId>
    requires |slots| <= U32_MAX
  {
    if slots == [] then []
    else
      var n := |slots| - 1;
      var rest := IdsIn(slots[..n], state);
      if slots[n].Occupied? && slots[n].value.state == state then rest + [JobId(n, slots[n].generation)] else rest
  }

  lemma {:induction false} IdsInSlots(slots: seq<Arenas.Slot<Job>>, state: JobState)
    requires |slots| <= U32_MAX
    ensures NoDuplicates(IdsIn(slots, state))
    ensures forall x :: x in IdsIn(slots, state) <==>
              x.index < |slots| && slots[x.index].Occupied? && slots[x.index].generation == x.generation
                  && slots[x.index].value.state == state
  {
    if slots != [] { IdsInSlots(slots[..|slots| - 1], state); }
  }

  lemma IdsInMembers(jobs: Jobs, state: JobState)
    requires Small(jobs)
    ensures NoDuplicates(IdsIn(jobs.slots, state)) && forall x :: x in IdsIn(jobs.slots, state) <==> In(jobs, x, state)
  {
    IdsInSlots(jobs.slots, state);
  }

  lemma EvictingOnCpu(jobs: Jobs)
    requires Small(jobs)
    ensures AllOnCpu(jobs, IdsIn(jobs.slots, JobState.Preempted))
  {
    IdsInMembers(jobs, JobState.Preempted);
  }

  /** Once no eviction is in flight and the log starts over, the engine's own bound holds. */
  lemma Settled(l: Life, l': Life, max: nat)
    requires Small(l.jobs) && Bounded(l.jobs, max + 1)
      && l'.jobs == AfterRequeue(l.jobs, IdsIn(l.jobs.slots, JobState.Preempted))
    requires Good(l', max + 1)
    ensures Good(l'.(base := l'.Durable(), log := []), max)
  {
    var l'' := l'.(base := l'.Durable(), log := []);
    GoodIsWhole(l', max + 1);
    IdsInMembers(l.jobs, JobState.Preempted);
    forall x | Arenas.Live(l'.jobs, x) ensures ExtraOk(Arenas.Value(l'.jobs, x), x in l'.noted, max) {
      assert ExtraOk(Arenas.Value(l'.jobs, x), x in l'.noted, max + 1);
      assert Arenas.Live(l.jobs, x);
    }
    MirrorsAtStart(l''.base);
    GoodIsWhole(l'', max);
  }

  /** With no worker attached, exactly the Running jobs are held. */
  lemma HeldBound(jobs: Jobs, jobs': Jobs, b: Binding)
    requires Small(jobs) && jobs' == AfterRequeue(jobs, IdsIn(jobs.slots, JobState.Preempted))
    requires b == Bindings.Binding([], [], [], IdsIn(jobs.slots, JobState.Running))
    ensures Bound(jobs', b) && forall x :: x !in Strays(jobs', b)
  {
    IdsInMembers(jobs, JobState.Running);
    IdsInMembers(jobs, JobState.Preempted);
    forall x ensures OnCpu(jobs', x) <==> x in b.held {}
    BoundIsOk(jobs', b);
  }

  /** How many dependencies `id` still waits for. */
  function Counter(t: Tables, id: JobId): nat { if id.index < |t.unsatisfied| then t.unsatisfied[id.index] else 0 }

  /** Two engines over the same arena, eviction counts aside, agree on the ready set, the dependency counters and the
      charges. */
  lemma BooksFollowArena(l: Life, r: Life, max: nat, max': nat)
    requires Good(l, max) && Good(r, max') && Bare(l.Durable()) == Bare(r.Durable())
    ensures forall c: PriorityClass, id :: Queued(l.books.queues, c, id) <==> Queued(r.books.queues, c, id)
    ensures forall id :: Tracked(l.books.tables, id) <==> Tracked(r.books.tables, id)
    ensures forall id :: Tracked(l.books.tables, id) ==> Counter(l.books.tables, id) == Counter(r.books.tables, id)
    ensures forall i :: 0 <= i < |l.books.ledgers| && i < |r.books.ledgers| ==>
              l.books.ledgers[i].runningCpu == r.books.ledgers[i].runningCpu
  {
    GoodIsWhole(l, max);
    GoodIsWhole(r, max');
    TwinsArePlain(r.jobs, l.jobs);
    TwinInv(r.jobs, l.jobs, r.books);
    BooksAreDetermined(l.jobs, l.books, r.books);
  }
}
