/** The write-ahead log's records and what replaying them means. */
module Replay {
  import opened Domain
  import Arenas
  import opened Eligibility
  import opened ReadySets
  import opened FairShares
  import opened Lifecycle
  import opened Admission
  import opened Transitions

  datatype Record =
    | Submitted(id: JobId, job: Job)
    | Dispatched(id: JobId, at: u64)
    | Completed(id: JobId, at: u64)
    | Failed(id: JobId, at: u64)
    | Cancelled(id: JobId, at: u64)
    | Requeued(id: JobId, at: u64)
    | Forgotten(id: JobId)
    | Preempted(id: JobId, at: u64)

  /** What the log determines: the arena, and which handles ever completed. */
  datatype Durable = Durable(jobs: Jobs, done: set<JobId>)

  const BLANK: Durable := Durable(Arenas.View([], None), {})

  // ---- classification as a function ----

  function StopFrom(jobs: Jobs, id: JobId, deps: seq<JobId>, i: nat): (k: nat)
    requires i <= |deps|
    ensures i <= k <= |deps| && (k < |deps| ==> Stops(jobs, id, deps[k])) && forall j :: i <= j < k ==>
              !Stops(jobs, id, deps[j])
    decreases |deps| - i
  {
    if i == |deps| || Stops(jobs, id, deps[i]) then i else StopFrom(jobs, id, deps, i + 1)
  }

  /** The verdict on a dependency list. */
  ghost function Classification(jobs: Jobs, id: JobId, deps: seq<JobId>): (c: Classified)
    ensures ClassifiesAs(jobs, id, deps, c)
  {
    var k := StopFrom(jobs, id, deps, 0);
    if k < |deps| then
      assert FirstStop(jobs, id, deps, k);
      if BadEntry(jobs, id, deps[k]) then Unresolved(id, deps[k]) else Verdict(Readiness.Doomed)
    else if exists d :: d in deps && PendingEntry(jobs, d) then Verdict(MustWait)
    else Verdict(CanRun)
  }

  lemma ClassificationIsUnique(jobs: Jobs, id: JobId, deps: seq<JobId>, c: Classified)
    requires ClassifiesAs(jobs, id, deps, c)
    ensures c == Classification(jobs, id, deps)
  {
    var k := StopFrom(jobs, id, deps, 0);
    forall j | FirstStop(jobs, id, deps, j) ensures j == k {}
  }

  // ---- replay ----

  /** A record replayed through the lifecycle calls; `None` where `apply` reports an error. */
  ghost function Apply(s: Durable, r: Record): Option<Durable>
    requires Small(s.jobs)
  {
    match r
    case Submitted(id, job) =>
      if CanAdmit(s.jobs) && Arenas.NextId(s.jobs) == id && job.state.Submitted? && job.account < MAX_ACCOUNTS
         && Classification(s.jobs, id, job.deps).Verdict?
      then Some(s.(jobs := AfterSubmission(s.jobs, job, Classification(s.jobs, id, job.deps).readiness)))
      else None
    case Dispatched(id, _) => if In(s.jobs, id,
                                    JobState.Ready) then Some(s.(jobs := AfterMove(s.jobs, id, JobState.Running)))
                                        else None
    case Completed(id, _) =>
      if MayBecome(s.jobs, id, JobState.Completed)
          then Some(Durable(AfterCompletion(s.jobs, s.done, id), s.done + {id})) else None
    case Failed(id, _) =>
      if MayBecome(s.jobs, id, JobState.Failed) then Some(s.(jobs := AfterTermination(s.jobs, id, JobState.Failed)))
          else None
    case Cancelled(id, _) =>
      if MayBecome(s.jobs, id, JobState.Cancelled)
          then Some(s.(jobs := AfterTermination(s.jobs, id, JobState.Cancelled))) else None
    case Requeued(id, _) =>
      if In(s.jobs, id, JobState.Running) || MayBecome(s.jobs, id, JobState.Ready)
          then Some(s.(jobs := AfterMove(s.jobs, id, JobState.Ready))) else None
    case Preempted(id, _) => if In(s.jobs, id,
                                   JobState.Running) then Some(s.(jobs := AfterMove(s.jobs, id, JobState.Preempted)))
                                       else None
    case Forgotten(id) => if Arenas.Live(s.jobs, id) then Some(s.(jobs := Arenas.Remove(s.jobs, id))) else Some(s)
  }

  lemma ApplyStaysSmall(s: Durable, r: Record)
    requires Small(s.jobs) && Apply(s, r).Some?
    ensures Small(Apply(s, r).value.jobs)
  {
    if r.Submitted? {
      InsertAdmits(s.jobs, r.job.(state := StateFor(Classification(s.jobs, r.id, r.job.deps).readiness)));
    }
  }

  /** The whole log, from a starting state: an empty arena or what a snapshot restored. */
  ghost function ReplayFrom(base: Durable, log: seq<Record>): (s: Option<Durable>)
    requires Small(base.jobs)
    ensures s.Some? ==> Small(s.value.jobs)
    decreases |log|
  {
    if log == [] then Some(base)
    else
      var before := ReplayFrom(base, log[..|log| - 1]);
      if before == None then None
      else
        var after := Apply(before.value, log[|log| - 1]);
        if after == None then None else (ApplyStaysSmall(before.value, log[|log| - 1]); after)
  }

  lemma ReplayOneMore(base: Durable, log: seq<Record>, r: Record)
    requires Small(base.jobs) && ReplayFrom(base, log).Some?
    ensures ReplayFrom(base, log + [r]) == Apply(ReplayFrom(base, log).value, r)
  {
    var more := log + [r];
    assert more[..|more| - 1] == log && more[|more| - 1] == r;
  }

  /** A log that replays replays from every prefix: recovery from a cut log never fails. */
  lemma {:induction false} PrefixReplays(base: Durable, log: seq<Record>, k: nat)
    requires Small(base.jobs) && ReplayFrom(base, log).Some? && k <= |log|
    ensures ReplayFrom(base, log[..k]).Some?
    decreases |log| - k
  {
    if k == |log| {
      assert log[..k] == log;
    } else {
      PrefixReplays(base, log, k + 1);
      assert log[..k + 1][..k] == log[..k];
    }
  }

  /** What an engine ever logs: jobs as submitted, requeues of jobs that held cpu, removals of finished ones. */
  ghost predicate Fits(s: Durable, r: Record) {
    match r
    case Submitted(_, job) => job.state.Submitted? && job.preemptions == 0 && job.request != ZERO
    case Requeued(id, _) => Arenas.Live(s.jobs, id) && StateOf(s.jobs, id).HoldsCpu()
    case Forgotten(id) => Arenas.Live(s.jobs, id) && StateOf(s.jobs, id).IsTerminal() && id.generation < U32_MAX
    case _ => true
  }

  ghost predicate LawfulLog(base: Durable, log: seq<Record>)
    requires Small(base.jobs)
    decreases |log|
  {
    log != [] ==>
      var front := log[..|log| - 1];
      LawfulLog(base, front) && ReplayFrom(base, front).Some? && Fits(ReplayFrom(base, front).value, log[|log| - 1])
  }

  lemma LawfulOneMore(base: Durable, log: seq<Record>, r: Record)
    requires Small(base.jobs) && LawfulLog(base, log) && ReplayFrom(base, log).Some?
      && Fits(ReplayFrom(base, log).value, r)
    ensures LawfulLog(base, log + [r])
  {
    var more := log + [r];
    assert more[..|more| - 1] == log && more[|more| - 1] == r;
  }

  lemma {:induction false} LawfulPrefix(base: Durable, log: seq<Record>, k: nat)
    requires Small(base.jobs) && LawfulLog(base, log) && k < |log|
    ensures LawfulLog(base, log[..k]) && ReplayFrom(base, log[..k]).Some?
      && Fits(ReplayFrom(base, log[..k]).value, log[k])
    decreases |log| - k
  {
    if k == |log| - 1 {
      assert log[..k] == log[..|log| - 1];
    } else {
      LawfulPrefix(base, log, k + 1);
      var front := log[..k + 1];
      assert front[..k] == log[..k] && front[k] == log[k];
    }
  }

  // ---- the arena without eviction counters ----

  function PlainJob(job: Job): Job { job.(preemptions := 0) }

  function PlainSlot(slot: Arenas.Slot<Job>): Arenas.Slot<Job> {
    match slot
    case Occupied(g, job) => Arenas.Occupied(g, PlainJob(job))
    case Vacant(_, _) => slot
  }

  /** Evictions are counted in the arena but not in the log. */
  function Plain(jobs: Jobs): (r: Jobs)
    ensures |r.slots| == |jobs.slots| && r.freeHead == jobs.freeHead
    ensures forall x :: Arenas.Live(r, x) <==> Arenas.Live(jobs, x)
    ensures forall x :: Arenas.Live(jobs, x) ==> Arenas.Value(r, x) == PlainJob(Arenas.Value(jobs, x))
    ensures forall x :: Arenas.Issued(r, x) <==> Arenas.Issued(jobs, x)
  {
    Arenas.View(seq(|jobs.slots|, i requires 0 <= i < |jobs.slots| => PlainSlot(jobs.slots[i])), jobs.freeHead)
  }

  lemma PlainSame(a: Jobs, b: Jobs)
    requires |a.slots| == |b.slots| && a.freeHead == b.freeHead
    requires forall i :: 0 <= i < |a.slots| ==> PlainSlot(a.slots[i]) == b.slots[i]
    ensures Plain(a) == b
  {
    assert Plain(a).slots == b.slots;
  }

  lemma PlainRestate(jobs: Jobs, states: map<JobId, JobState>)
    requires Small(jobs)
    ensures Plain(Restate(jobs, states)) == Restate(Plain(jobs), states)
  {
    PlainSame(Restate(jobs, states), Restate(Plain(jobs), states));
  }

  lemma PlainPromoted(jobs: Jobs, done: set<JobId>, id: JobId)
    requires Small(jobs)
    ensures Promoted(Plain(jobs), done, id) == Promoted(jobs, done, id)
  {
    var a, b := Promoted(Plain(jobs), done, id), Promoted(jobs, done, id);
    forall x ensures x in a <==> x in b {}
  }

  lemma PlainDoomed(jobs: Jobs, id: JobId)
    requires Small(jobs)
    ensures Lifecycle.Doomed(Plain(jobs), id) == Lifecycle.Doomed(jobs, id)
  {
    forall p ensures WaitPath(Plain(jobs), p) <==> WaitPath(jobs, p) {
      forall k | 0 <= k < |p| ensures Open(Plain(jobs), p[k]) <==> Open(jobs, p[k]) {}
    }
    forall x ensures WaitsFor(Plain(jobs), id, x) <==> WaitsFor(jobs, id, x) {}
  }

  lemma PlainInsert(jobs: Jobs, job: Job)
    requires CanAdmit(jobs) && CanAdmit(Plain(jobs))
    ensures Plain(Arenas.Insert(jobs, job)) == Arenas.Insert(Plain(jobs), PlainJob(job))
    ensures Arenas.NextId(Plain(jobs)) == Arenas.NextId(jobs)
  {
    PlainSame(Arenas.Insert(jobs, job), Arenas.Insert(Plain(jobs), PlainJob(job)));
  }

  lemma PlainRemove(jobs: Jobs, id: JobId)
    requires Arenas.Live(jobs, id)
    ensures Plain(Arenas.Remove(jobs, id)) == Arenas.Remove(Plain(jobs), id)
  {
    PlainSame(Arenas.Remove(jobs, id), Arenas.Remove(Plain(jobs), id));
  }

  lemma PlainStore(jobs: Jobs)
    ensures StoreOk(jobs) <==> StoreOk(Plain(jobs))
  {
    if StoreOk(jobs) { SameShapeStore(jobs, Plain(jobs)); }
    if StoreOk(Plain(jobs)) { SameShapeStore(Plain(jobs), jobs); }
  }

  lemma SameShapeStore(a: Jobs, b: Jobs)
    requires StoreOk(a) && |a.slots| == |b.slots| && a.freeHead == b.freeHead
    requires forall i :: 0 <= i < |a.slots| ==>
              (a.slots[i].Vacant? <==> b.slots[i].Vacant?) && (a.slots[i].Vacant? ==> a.slots[i] == b.slots[i])
    ensures StoreOk(b)
  {
    var free: seq<nat> :| Arenas.FreeListExact(a.slots, a.freeHead, free);
    Arenas.ChainMembers(a.slots, a.freeHead, free);
    Arenas.ChainFrame(a.slots, b.slots, a.freeHead, free);
    assert Arenas.FreeListExact(b.slots, b.freeHead, free);
  }

  lemma PlainClassification(jobs: Jobs, id: JobId, deps: seq<JobId>)
    ensures Classification(Plain(jobs), id, deps) == Classification(jobs, id, deps)
  {
    var c, p := Classification(jobs, id, deps), Plain(jobs);
    forall d ensures BadEntry(jobs, id, d) == BadEntry(p, id, d) && DeadEntry(jobs, d) == DeadEntry(p, d)
             ensures PendingEntry(jobs, d) == PendingEntry(p, d) {}
    forall k ensures FirstStop(jobs, id, deps, k) == FirstStop(p, id, deps, k) {}
    assert ClassifiesAs(p, id, deps, c);
    ClassificationIsUnique(p, id, deps, c);
  }

  /** The same arena but for eviction counters. */
  ghost predicate Twins(a: Jobs, b: Jobs) {
    && |a.slots| == |b.slots| && a.freeHead == b.freeHead
    && (forall i :: 0 <= i < |a.slots| ==> PlainSlot(a.slots[i]) == PlainSlot(b.slots[i]))
  }

  lemma TwinsArePlain(a: Jobs, b: Jobs)
    ensures Twins(a, b) <==> Plain(a) == Plain(b)
  {
    if Twins(a, b) { assert Plain(a).slots == Plain(b).slots; }
    if Plain(a) == Plain(b) {
      forall i | 0 <= i < |a.slots| ensures PlainSlot(a.slots[i]) == PlainSlot(b.slots[i]) {
        assert Plain(a).slots[i] == Plain(b).slots[i];
      }
    }
  }

  lemma TwinJobs(a: Jobs, b: Jobs)
    requires Twins(a, b)
    ensures forall x :: Arenas.Live(a, x) <==> Arenas.Live(b, x)
    ensures forall x :: Arenas.Live(a, x) ==> PlainJob(Arenas.Value(a, x)) == PlainJob(Arenas.Value(b, x))
    ensures forall x :: Arenas.Issued(a, x) <==> Arenas.Issued(b, x)
  {}

  /** Everything the scheduler tracks ignores the eviction counters. */
  lemma TwinInv(a: Jobs, b: Jobs, books: Books)
    requires Inv(a, books) && Twins(a, b)
    ensures Inv(b, books)
  {
    TwinJobs(a, b);
    SameShapeStore(a, b);
    TwinHistory(a, b, books.done);
    TwinTracker(a, b, books.tables);
    TwinQueue(a, b, books.queues);
    TwinCharge(a, b, books.ledgers);
  }

  lemma TwinHistory(a: Jobs, b: Jobs, done: set<JobId>)
    requires HistoryOk(a, done) && Twins(a, b)
    ensures HistoryOk(b, done)
  {
    TwinJobs(a, b);
    forall x | Arenas.Live(b, x) ensures JobOk(b, done, x) {
      assert JobOk(a, done, x);
      forall d | Open(a, d) ensures Open(b, d) {}
    }
  }

  lemma TwinTracker(a: Jobs, b: Jobs, t: Tables)
    requires TrackerOk(a, t) && Twins(a, b)
    ensures TrackerOk(b, t)
  {
    TwinJobs(a, b);
    assert Graph(b) == Graph(a);
    forall x ensures Tracked(t, x) <==> Open(b, x) { assert Tracked(t, x) <==> Open(a, x); }
  }

  lemma TwinQueue(a: Jobs, b: Jobs, q: Queues)
    requires QueueOk(a, q) && Twins(a, b)
    ensures QueueOk(b, q)
  {
    TwinJobs(a, b);
    forall c: PriorityClass, x ensures Queued(q, c, x) <==>
        In(b, x, JobState.Ready) && Arenas.Value(b, x).priorityClass == c {
      assert Queued(q, c, x) <==> In(a, x, JobState.Ready) && Arenas.Value(a, x).priorityClass == c;
    }
  }

  lemma TwinCharge(a: Jobs, b: Jobs, ledgers: seq<Ledger>)
    requires ChargeOk(a, ledgers) && Twins(a, b)
    ensures ChargeOk(b, ledgers)
  {
    TwinJobs(a, b);
    forall i, account | 0 <= i < |a.slots| ensures CpuOf(a.slots[i], account) == CpuOf(b.slots[i], account) {
      assert PlainSlot(a.slots[i]) == PlainSlot(b.slots[i]);
    }
    ChargeUnaffected(a, b, ledgers);
  }

  // ---- replay does not depend on the counters ----

  function Bare(s: Durable): Durable { s.(jobs := Plain(s.jobs)) }

  function BareRecord(r: Record): Record {
    match r case Submitted(id, job) => Record.Submitted(id, PlainJob(job)) case _ => r
  }

  ghost predicate Alike(s: Option<Durable>, t: Option<Durable>) {
    (s == None <==> t == None) && (s.Some? && t.Some? ==> Bare(s.value) == t.value)
  }

  lemma ApplyIgnoresCounters(s: Durable, r: Record)
    requires Small(s.jobs)
    ensures Alike(Apply(s, r), Apply(Bare(s), BareRecord(r)))
  {
    match r
    case Submitted(id, job) => SubmitIgnoresCounters(s, id, job);
    case Completed(id, _) =>
      PlainPromoted(s.jobs, s.done, id);
      PlainRestate(s.jobs, All(Promoted(s.jobs, s.done, id), JobState.Ready)[id := JobState.Completed]);
    case Failed(id, _) =>
      PlainDoomed(s.jobs, id);
      PlainRestate(s.jobs, All(Lifecycle.Doomed(s.jobs, id), JobState.Cancelled)[id := JobState.Failed]);
    case Cancelled(id, _) =>
      PlainDoomed(s.jobs, id);
      PlainRestate(s.jobs, All(Lifecycle.Doomed(s.jobs, id), JobState.Cancelled)[id := JobState.Cancelled]);
    case Dispatched(id, _) => PlainRestate(s.jobs, map[id := JobState.Running]);
    case Requeued(id, _) => PlainRestate(s.jobs, map[id := JobState.Ready]);
    case Preempted(id, _) => PlainRestate(s.jobs, map[id := JobState.Preempted]);
    case Forgotten(id) => if Arenas.Live(s.jobs, id) { PlainRemove(s.jobs, id); }
  }

  lemma SubmitIgnoresCounters(s: Durable, id: JobId, job: Job)
    requires Small(s.jobs)
    ensures Alike(Apply(s, Record.Submitted(id, job)), Apply(Bare(s), Record.Submitted(id, PlainJob(job))))
  {
    PlainStore(s.jobs);
    PlainClassification(s.jobs, id, job.deps);
    assert CanAdmit(s.jobs) <==> CanAdmit(Plain(s.jobs));
    if CanAdmit(s.jobs) && Classification(s.jobs, id, job.deps).Verdict? {
      PlainInsert(s.jobs, job.(state := StateFor(Classification(s.jobs, id, job.deps).readiness)));
    }
  }

  lemma FitsIgnoresCounters(s: Durable, t: Durable, r: Record)
    requires Bare(s) == Bare(t) && Fits(s, r)
    ensures Fits(t, r)
  {
    TwinsArePlain(s.jobs, t.jobs);
    TwinJobs(s.jobs, t.jobs);
  }

  /** The log replays, lawfully, to exactly this arena, up to eviction counters. */
  ghost predicate Mirrors(base: Durable, log: seq<Record>, live: Durable) {
    && Small(base.jobs) && LawfulLog(base, log)
    && ReplayFrom(base, log).Some? && Bare(ReplayFrom(base, log).value) == Bare(live)
  }

  lemma MirrorsAtStart(base: Durable)
    requires Small(base.jobs)
    ensures Mirrors(base, [], base)
  {}

  /** One logged transition on both sides keeps them together. */
  lemma MirrorStep(base: Durable, log: seq<Record>, live: Durable, r: Record, live': Durable)
    requires Mirrors(base, log, live) && Small(live.jobs) && Fits(live, r)
    requires Apply(live, r).Some? && Bare(Apply(live, r).value) == Bare(live')
    ensures Mirrors(base, log + [r], live')
  {
    var s := ReplayFrom(base, log).value;
    ReplayOneMore(base, log, r);
    ApplyIgnoresCounters(s, r);
    ApplyIgnoresCounters(live, r);
    FitsIgnoresCounters(live, s, r);
    LawfulOneMore(base, log, r);
  }
}
