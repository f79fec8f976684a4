/** The scheduler thread: every command and tick, in any order. */
module Services {
  import opened Domain
  import Arenas
  import opened Slots
  import opened Lifecycle
  import opened Admission
  import opened Bindings
  import opened Engines

  datatype Command =
    | Submit(job: Job)
    | Cancel(id: JobId)
    | ReportCompleted(id: JobId)
    | ReportFailed(id: JobId)
    | ReportPreempted(id: JobId)
    | Join(name: string, capacity: Resources, inFlight: seq<JobId>)
    | Leave(slot: SlotIndex)
    | Drain(slot: SlotIndex)
    | Tick

  /** A command, when it is handled, and whether the daemon is leaving by then. */
  datatype Input = Input(command: Command, now: u64, quiescing: bool)

  /** No slot has been reused 2^32 times. */
  predicate Fresh(slots: seq<Arenas.Slot<Job>>) {
    forall i :: 0 <= i < |slots| && slots[i].Occupied? ==> slots[i].generation < U32_MAX
  }

  lemma FreshIsYoung(jobs: Jobs)
    requires Fresh(jobs.slots)
    ensures Young(jobs)
  {}

  /** What the engine takes for granted of what it is handed. */
  predicate Welcome(jobs: Jobs, c: Command) {
    match c
    case Submit(job) => Roomy(jobs) && job.state.Submitted? && job.preemptions == 0 && job.request != ZERO
    case Tick => Fresh(jobs.slots)
    case _ => true
  }

  /** Who is on cpu but bound to nothing after an input. A job joins them when its eviction is reported though nobody
      evicted it, or when its worker is lost while the daemon is leaving; only cancelling takes it back out. */
  ghost function StraysAfter(strays: iset<JobId>, jobs: Jobs, b: Binding, i: Input): iset<JobId> {
    match i.command
    case Cancel(id) => strays - iset{id}
    case ReportPreempted(id) =>
      if Located(b, id) && In(jobs, id, JobState.Running) then strays + iset{id} else strays
    case Leave(slot) => if i.quiescing then strays + Abandoned(b.running, slot) else strays
    case _ => strays
  }

  /** Workers coming and going, and ticks. */
  method HandleWorker(e: Engine, i: Input)
    requires e.Steady() && Welcome(e.jobs, i.command)
    requires i.command.Join? || i.command.Leave? || i.command.Drain? || i.command.Tick?
    modifies e, e.inventory, e.scheduler, e.scheduler.ready.low, e.scheduler.ready.normal, e.scheduler.ready.high,
             e.scheduler.ready.urgent, e.scheduler.deps, e.scheduler.fairshare
    ensures e.Steady() && e.base == old(e.base) && old(e.log) <= e.log
    ensures e.Strays() == StraysAfter(old(e.Strays()), old(e.jobs), old(e.Binding()), i)
  {
    match i.command {
      case Join(name, capacity, inFlight) => var slot, kills := e.OnWorkerJoined(name, capacity, inFlight, i.now);
      case Leave(slot) => e.EvictSlot(slot, i.quiescing, i.now);
      case Drain(slot) => e.OnWorkerDraining(slot);
      case Tick =>
        FreshIsYoung(e.jobs);
        var plan, evictions := e.Tick(i.now);
    }
  }

  /** Jobs arriving, cancelled and reported on. */
  method HandleJob(e: Engine, i: Input)
    requires e.Steady() && Welcome(e.jobs, i.command)
    requires i.command.Submit? || i.command.Cancel? || i.command.ReportCompleted? || i.command.ReportFailed?
      || i.command.ReportPreempted?
    modifies e, e.inventory, e.scheduler, e.scheduler.ready.low, e.scheduler.ready.normal, e.scheduler.ready.high,
             e.scheduler.ready.urgent, e.scheduler.deps, e.scheduler.fairshare
    ensures e.Steady() && e.base == old(e.base) && old(e.log) <= e.log
    ensures e.Strays() == StraysAfter(old(e.Strays()), old(e.jobs), old(e.Binding()), i)
  {
    match i.command {
      case Submit(job) => var id, accepted := e.OnSubmit(job, i.now);
      case Cancel(id) => var accepted := e.OnCancel(id, i.now);
      case ReportCompleted(id) => e.OnCompletedReport(id, i.now);
      case ReportFailed(id) => e.OnFailedReport(id, i.now);
      case ReportPreempted(id) => e.OnPreemptedReport(id, i.now);
    }
  }

  /** One input, in any state a run can reach. The scheduler, the ledgers, the log and the bindings stay right, and
      exactly the derailed jobs stray. */
  method Handle(e: Engine, i: Input)
    requires e.Steady() && Welcome(e.jobs, i.command)
    modifies e, e.inventory, e.scheduler, e.scheduler.ready.low, e.scheduler.ready.normal, e.scheduler.ready.high,
             e.scheduler.ready.urgent, e.scheduler.deps, e.scheduler.fairshare
    ensures e.Steady() && e.base == old(e.base) && old(e.log) <= e.log
    ensures e.Strays() == StraysAfter(old(e.Strays()), old(e.jobs), old(e.Binding()), i)
  {
    if i.command.Submit? || i.command.Cancel? || i.command.ReportCompleted? || i.command.ReportFailed?
        || i.command.ReportPreempted? {
      HandleJob(e, i);
    } else {
      HandleWorker(e, i);
    }
  }

  /** Only these inputs can derail `x`. */
  predicate MayDerail(i: Input, x: JobId) {
    i.command == ReportPreempted(x) || (i.command.Leave? && i.quiescing)
  }

  /** Any run of commands and ticks. Whatever came before, the arena is the replay of what was logged, counters, queues
      and charges agree with it, and what is bound is on cpu and charged once. A job on cpu is bound to nothing only if
      it was so at the start or an input derailed it. */
  method Serve(e: Engine, inputs: seq<Input>) returns (n: nat)
    requires e.Steady()
    modifies e, e.inventory, e.scheduler, e.scheduler.ready.low, e.scheduler.ready.normal, e.scheduler.ready.high,
             e.scheduler.ready.urgent, e.scheduler.deps, e.scheduler.fairshare
    ensures e.Steady() && e.base == old(e.base) && old(e.log) <= e.log
    ensures n <= |inputs| && (n < |inputs| ==> !Welcome(e.jobs, inputs[n].command))
    ensures forall x :: x in e.Strays() ==> x in old(e.Strays()) || exists i :: 0 <= i < n && MayDerail(inputs[i], x)
    ensures old(e.Valid()) && (forall i, x :: 0 <= i < n ==> !MayDerail(inputs[i], x)) ==> e.Valid()
  {
    n := 0;
    while n < |inputs| && Welcome(e.jobs, inputs[n].command)
      invariant n <= |inputs| && e.Steady() && e.base == old(e.base) && old(e.log) <= e.log
      invariant forall x :: x in e.Strays() ==>
                  x in old(e.Strays()) || exists i :: 0 <= i < n && MayDerail(inputs[i], x)
      decreases |inputs| - n
    {
      Handle(e, inputs[n]);
      n := n + 1;
    }
  }
}
