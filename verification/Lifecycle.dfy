/** What a job's life means, independently of the data structures: states, dependencies, charges.
    Under `Inv` the ready set, the counters and the charges are all determined by the arena. */
module Lifecycle {
  import opened Domain
  import Arenas
  import opened Eligibility
  import opened ReadySets
  import opened FairShares

  type Jobs = Arenas.View<Job>

  function StateOf(jobs: Jobs, id: JobId): JobState
    requires Arenas.Live(jobs, id)
  {
    Arenas.Value(jobs, id).state
  }

  predicate In(jobs: Jobs, id: JobId, state: JobState) {
    Arenas.Live(jobs, id) && StateOf(jobs, id) == state
  }

  predicate Open(jobs: Jobs, id: JobId) {
    Arenas.Live(jobs, id) && !StateOf(jobs, id).IsTerminal()
  }

  // ---- the arena with some states changed ----

  function NewState(job: Job, id: JobId, states: map<JobId, JobState>): Job {
    if id in states then job.(state := states[id]) else job
  }

  function Restate(jobs: Jobs, states: map<JobId, JobState>): (r: Jobs)
    requires |jobs.slots| <= U32_MAX
    ensures |r.slots| == |jobs.slots| && r.freeHead == jobs.freeHead
    ensures forall x :: Arenas.Live(r, x) <==> Arenas.Live(jobs, x)
    ensures forall x :: Arenas.Live(jobs, x) ==> Arenas.Value(r, x) == NewState(Arenas.Value(jobs, x), x, states)
    ensures forall x :: Arenas.Issued(r, x) <==> Arenas.Issued(jobs, x)
  {
    Arenas.View(seq(|jobs.slots|, i requires 0 <= i < |jobs.slots| => RestateSlot(jobs.slots[i], i, states)),
                jobs.freeHead)
  }

  function RestateSlot(slot: Arenas.Slot<Job>, i: nat, states: map<JobId, JobState>): Arenas.Slot<Job>
    requires i <= U32_MAX
  {
    match slot
    case Occupied(g, job) => Arenas.Occupied(g, NewState(job, JobId(i, g), states))
    case Vacant(_, _) => slot
  }

  lemma RestateNothing(jobs: Jobs)
    requires |jobs.slots| <= U32_MAX
    ensures Restate(jobs, map[]) == jobs
  {
    assert Restate(jobs, map[]).slots == jobs.slots;
  }

  ghost function LiveIds(jobs: Jobs): (r: set<JobId>)
    requires |jobs.slots| <= U32_MAX
    ensures forall x :: x in r <==> Arenas.Live(jobs, x)
  {
    set i | 0 <= i < |jobs.slots| && jobs.slots[i].Occupied? :: JobId(i, jobs.slots[i].generation)
  }

  /** Each live job's dependency list. */
  ghost function Graph(jobs: Jobs): (g: map<JobId, seq<JobId>>)
    requires |jobs.slots| <= U32_MAX
    ensures forall x :: x in g <==> Arenas.Live(jobs, x)
    ensures forall x :: Arenas.Live(jobs, x) ==> g[x] == Arenas.Value(jobs, x).deps
  {
    map x | x in LiveIds(jobs) :: Arenas.Value(jobs, x).deps
  }

  lemma RestateKeepsGraph(jobs: Jobs, states: map<JobId, JobState>)
    requires |jobs.slots| <= U32_MAX
    ensures Graph(Restate(jobs, states)) == Graph(jobs)
  {}

  // ---- charges ----

  /** The cpu a slot charges to `account`: only jobs that hold cpu on a worker count. */
  function CpuOf(slot: Arenas.Slot<Job>, account: nat): nat {
    if slot.Occupied? && slot.value.account == account && slot.value.state.HoldsCpu() then slot.value.request.cpu else 0
  }

  function SumCpu(slots: seq<Arenas.Slot<Job>>, account: nat): nat {
    if slots == [] then 0 else SumCpu(slots[..|slots| - 1], account) + CpuOf(slots[|slots| - 1], account)
  }

  lemma {:induction false} SumCpuUpdate(slots: seq<Arenas.Slot<Job>>, i: nat, s: Arenas.Slot<Job>, account: nat)
    requires i < |slots|
    ensures SumCpu(slots[i := s], account) + CpuOf(slots[i], account) == SumCpu(slots, account) + CpuOf(s, account)
  {
    var n := |slots| - 1;
    var after := slots[i := s];
    if i < n {
      SumCpuUpdate(slots[..n], i, s, account);
      assert after[..n] == slots[..n][i := s];
    } else {
      assert after[..n] == slots[..n];
    }
  }

  lemma {:induction false} SumCpuSame(a: seq<Arenas.Slot<Job>>, b: seq<Arenas.Slot<Job>>, account: nat)
    requires |a| == |b| && forall i :: 0 <= i < |a| ==> CpuOf(a[i], account) == CpuOf(b[i], account)
    ensures SumCpu(a, account) == SumCpu(b, account)
  {
    if a != [] { SumCpuSame(a[..|a| - 1], b[..|a| - 1], account); }
  }

  /** Fewer than 2^32 jobs of at most 2^32 - 1 millicores each cannot overflow `u64`. */
  lemma {:induction false} SumCpuFits(slots: seq<Arenas.Slot<Job>>, account: nat)
    ensures SumCpu(slots, account) <= |slots| * U32_MAX
  {
    if slots != [] { SumCpuFits(slots[..|slots| - 1], account); }
  }

  // ---- the invariant ----

  /** The arena is well formed and every index is below the sentinel. */
  ghost predicate StoreOk(jobs: Jobs) {
    Arenas.WellFormed(jobs) && |jobs.slots| <= U32_MAX
  }

  /** One job against its dependencies; `done` holds every handle that ever completed. */
  ghost predicate JobOk(jobs: Jobs, done: set<JobId>, id: JobId)
    requires Arenas.Live(jobs, id)
  {
    var j := Arenas.Value(jobs, id);
    && !j.state.Submitted?
    && (j.state.Completed? <==> id in done)
    && (!j.state.IsTerminal() ==> forall d :: d in j.deps ==> Arenas.Issued(jobs, d) && d != id)
    && (j.state.Ready? || j.state.HoldsCpu() ==> forall d :: d in j.deps ==> d in done)
    && (j.state.Blocked? ==> exists d :: d in j.deps && d !in done)
    && (j.state.Blocked? ==> forall d :: d in j.deps && d !in done ==> Open(jobs, d))
  }

  ghost predicate HistoryOk(jobs: Jobs, done: set<JobId>) {
    && (forall id :: Arenas.Live(jobs, id) ==> JobOk(jobs, done, id))
    && (forall d :: d in done ==> Arenas.Issued(jobs, d))
  }

  /** The tracker follows exactly the open jobs, and its counters agree with a full scan. */
  ghost predicate TrackerOk(jobs: Jobs, t: Tables) {
    |jobs.slots| <= U32_MAX && Consistent(t, Graph(jobs)) && TracksOpen(jobs, t) && EdgesIssued(jobs, t)
  }

  ghost predicate TracksOpen(jobs: Jobs, t: Tables) {
    forall id :: Tracked(t, id) <==> Open(jobs, id)
  }

  ghost predicate EdgesIssued(jobs: Jobs, t: Tables) {
    forall i, x :: 0 <= i < |t.dependents| && x in t.dependents[i] ==> Arenas.Issued(jobs, x)
  }

  /** Each Ready job is queued once, in its own class, and nothing else is. */
  ghost predicate QueueOk(jobs: Jobs, q: Queues) {
    forall c: PriorityClass, id :: Queued(q, c, id) <==>
        In(jobs, id, JobState.Ready) && Arenas.Value(jobs, id).priorityClass == c
  }

  /** Every account is charged exactly for its Running and Preempted jobs. */
  ghost predicate ChargeOk(jobs: Jobs, ledgers: seq<Ledger>) {
    && (forall a :: 0 <= a < |ledgers| ==> ledgers[a].runningCpu == SumCpu(jobs.slots, a))
    && (forall id :: Arenas.Live(jobs, id) ==> Arenas.Value(jobs, id).account < |ledgers|)
  }

  /** Everything the scheduler owns besides the arena. */
  datatype Books = Books(done: set<JobId>, queues: Queues, tables: Tables, ledgers: seq<Ledger>)

  ghost predicate Inv(jobs: Jobs, b: Books) {
    StoreOk(jobs) && HistoryOk(jobs, b.done) && TrackerOk(jobs, b.tables) && QueueOk(jobs, b.queues)
        && ChargeOk(jobs, b.ledgers)
  }

  /** The counters, the ready set and the charges are functions of the arena: two schedulers over the
      same arena agree on all of them, whatever route led there. */
  lemma BooksAreDetermined(jobs: Jobs, a: Books, b: Books)
    requires Inv(jobs, a) && Inv(jobs, b)
    ensures forall c: PriorityClass, id :: Queued(a.queues, c, id) <==> Queued(b.queues, c, id)
    ensures forall id :: Tracked(a.tables, id) <==> Tracked(b.tables, id)
    ensures forall id :: Tracked(a.tables, id) ==> a.tables.unsatisfied[id.index] == b.tables.unsatisfied[id.index]
    ensures forall i :: 0 <= i < |a.ledgers| && i < |b.ledgers| ==> a.ledgers[i].runningCpu == b.ledgers[i].runningCpu
  {
    QueuesAgree(jobs, a.queues, b.queues);
    CountersAgree(jobs, a.tables, b.tables);
  }

  lemma QueuesAgree(jobs: Jobs, q: Queues, q': Queues)
    requires QueueOk(jobs, q) && QueueOk(jobs, q')
    ensures forall c: PriorityClass, id :: Queued(q, c, id) <==> Queued(q', c, id)
  {
    forall c: PriorityClass, id ensures Queued(q, c, id) <==> Queued(q', c, id) {
      assert Queued(q, c, id) <==> In(jobs, id, JobState.Ready) && Arenas.Value(jobs, id).priorityClass == c;
    }
  }

  lemma CountersAgree(jobs: Jobs, t: Tables, t': Tables)
    requires TrackerOk(jobs, t) && TrackerOk(jobs, t')
    ensures forall id :: Tracked(t, id) <==> Tracked(t', id)
    ensures forall id :: Tracked(t, id) ==> t.unsatisfied[id.index] == t'.unsatisfied[id.index]
  {
    forall id ensures Tracked(t, id) <==> Tracked(t', id) { assert Tracked(t, id) <==> Open(jobs, id); }
    forall id | Tracked(t, id) ensures t.unsatisfied[id.index] == t'.unsatisfied[id.index] {
      CountTrackedSame(t, t', Graph(jobs)[id]);
    }
  }

  /** A Blocked job's counter is positive and equals its number of dependency entries that have not completed. */
  lemma BlockedCounter(jobs: Jobs, b: Books, id: JobId)
    requires Inv(jobs, b) && In(jobs, id, JobState.Blocked)
    ensures Tracked(b.tables, id)
    ensures b.tables.unsatisfied[id.index] == CountNotDone(Arenas.Value(jobs, id).deps, b.done) > 0
  {
    var deps := Arenas.Value(jobs, id).deps;
    assert JobOk(jobs, b.done, id);
    forall d | d in deps ensures Tracked(b.tables, d) <==> d !in b.done {
      assert Arenas.Live(jobs, d) ==> JobOk(jobs, b.done, d);
    }
    CountNotDoneIsTracked(b.tables, deps, b.done);
    var d :| d in deps && d !in b.done;
    CountNotDonePositive(deps, b.done, d);
  }

  function CountNotDone(deps: seq<JobId>, done: set<JobId>): nat {
    if deps == [] then 0
    else CountNotDone(deps[..|deps| - 1], done) + if deps[|deps| - 1] in done then 0 else 1
  }

  lemma {:induction false} CountNotDoneIsTracked(t: Tables, deps: seq<JobId>, done: set<JobId>)
    requires forall d :: d in deps ==> (Tracked(t, d) <==> d !in done)
    ensures CountNotDone(deps, done) == CountTracked(t, deps)
  {
    if deps != [] { CountNotDoneIsTracked(t, deps[..|deps| - 1], done); }
  }

  lemma {:induction false} CountNotDonePositive(deps: seq<JobId>, done: set<JobId>, d: JobId)
    requires d in deps && d !in done
    ensures CountNotDone(deps, done) > 0
  {
    var n := |deps| - 1;
    if deps[n] in done {
      assert deps == deps[..n] + [deps[n]];
      CountNotDonePositive(deps[..n], done, d);
    }
  }

  // ---- what each transition means ----

  /** Blocked jobs for which `id` is the last missing answer. */
  ghost function Promoted(jobs: Jobs, done: set<JobId>, id: JobId): (r: set<JobId>)
    requires |jobs.slots| <= U32_MAX
  {
    set x | x in LiveIds(jobs) && In(jobs, x, JobState.Blocked) && id in Arenas.Value(jobs, x).deps
            && forall d :: d in Arenas.Value(jobs, x).deps ==> d == id || d in done
  }

  ghost function All(ids: set<JobId>, state: JobState): map<JobId, JobState> { map x | x in ids :: state }

  /** `id` completed: it is Completed, and whoever waited for nothing else is Ready. */
  ghost function AfterCompletion(jobs: Jobs, done: set<JobId>, id: JobId): Jobs
    requires |jobs.slots| <= U32_MAX
  {
    Restate(jobs, All(Promoted(jobs, done, id), JobState.Ready)[id := JobState.Completed])
  }

  /** Each step goes from an open job to an open job that lists it as a dependency. */
  ghost predicate WaitPath(jobs: Jobs, p: seq<JobId>) {
    && |p| >= 1
    && (forall k :: 0 <= k < |p| ==> Open(jobs, p[k]))
    && (forall k :: 0 <= k < |p| - 1 ==> p[k] in Arenas.Value(jobs, p[k + 1]).deps)
  }

  /** `b` waits for `a`, directly or through other open jobs. */
  ghost predicate WaitsFor(jobs: Jobs, a: JobId, b: JobId) {
    exists p :: WaitPath(jobs, p) && p[0] == a && p[|p| - 1] == b
  }

  /** The open jobs that wait for `id`, directly or not. */
  ghost function Doomed(jobs: Jobs, id: JobId): set<JobId>
    requires |jobs.slots| <= U32_MAX
  {
    set x | x in LiveIds(jobs) && x != id && WaitsFor(jobs, id, x)
  }

  /** `id` ended without completing: everything that waits for it is Cancelled. */
  ghost function AfterTermination(jobs: Jobs, id: JobId, state: JobState): Jobs
    requires |jobs.slots| <= U32_MAX
  {
    Restate(jobs, All(Doomed(jobs, id), JobState.Cancelled)[id := state])
  }

  function AfterMove(jobs: Jobs, id: JobId, state: JobState): Jobs
    requires |jobs.slots| <= U32_MAX
  {
    Restate(jobs, map[id := state])
  }

  // ---- charges under transitions ----

  /** State changes that neither take nor give back cpu leave every account alone. */
  lemma ChargeUnaffected(jobs: Jobs, jobs': Jobs, ledgers: seq<Ledger>)
    requires ChargeOk(jobs, ledgers) && |jobs.slots| == |jobs'.slots|
    requires forall i, a :: 0 <= i < |jobs.slots| ==> CpuOf(jobs.slots[i], a) == CpuOf(jobs'.slots[i], a)
    requires forall x :: Arenas.Live(jobs', x) ==>
              Arenas.Live(jobs, x) && Arenas.Value(jobs', x).account == Arenas.Value(jobs, x).account
    ensures ChargeOk(jobs', ledgers)
  {
    forall a | 0 <= a < |ledgers| ensures ledgers[a].runningCpu == SumCpu(jobs'.slots, a) {
      SumCpuSame(jobs.slots, jobs'.slots, a);
    }
  }

  lemma RestateCpu(jobs: Jobs, states: map<JobId, JobState>, i: nat, a: nat)
    requires |jobs.slots| <= U32_MAX && i < |jobs.slots|
    requires forall x :: x in states && Arenas.Live(jobs, x) ==> StateOf(jobs, x).HoldsCpu() == states[x].HoldsCpu()
    ensures CpuOf(Restate(jobs, states).slots[i], a) == CpuOf(jobs.slots[i], a)
  {
    if jobs.slots[i].Occupied? {
      var x := JobId(i, jobs.slots[i].generation);
      assert Arenas.Live(jobs, x);
    }
  }

  lemma QuietRestate(jobs: Jobs, states: map<JobId, JobState>, ledgers: seq<Ledger>)
    requires |jobs.slots| <= U32_MAX && ChargeOk(jobs, ledgers)
    requires forall x :: x in states && Arenas.Live(jobs, x) ==> StateOf(jobs, x).HoldsCpu() == states[x].HoldsCpu()
    ensures ChargeOk(Restate(jobs, states), ledgers)
  {
    forall i, a | 0 <= i < |jobs.slots| ensures CpuOf(jobs.slots[i], a) == CpuOf(Restate(jobs, states).slots[i], a) {
      RestateCpu(jobs, states, i, a);
    }
    ChargeUnaffected(jobs, Restate(jobs, states), ledgers);
  }

  /** `account` holds `cpu` more (`up`) or less; no other account moved. */
  ghost predicate Moves(ledgers: seq<Ledger>, ledgers': seq<Ledger>, account: nat, cpu: nat, up: bool) {
    && |ledgers'| == |ledgers|
    && (forall a :: 0 <= a < |ledgers| && a != account ==> ledgers'[a] == ledgers[a])
    && (account < |ledgers| ==>
          ledgers'[account].runningCpu == if up then Cap64(ledgers[account].runningCpu + cpu)
              else Monus(ledgers[account].runningCpu, cpu))
  }

  /** One job starts or stops holding cpu; only its account moves, by exactly its request, never saturating. */
  lemma ChargeMoves(jobs: Jobs, id: JobId, state: JobState, ledgers: seq<Ledger>, ledgers': seq<Ledger>)
    requires StoreOk(jobs) && ChargeOk(jobs, ledgers) && Arenas.Live(jobs, id)
    requires StateOf(jobs, id).HoldsCpu() != state.HoldsCpu()
    requires Moves(ledgers, ledgers', Arenas.Value(jobs, id).account, Arenas.Value(jobs, id).request.cpu,
                   state.HoldsCpu())
    ensures ChargeOk(AfterMove(jobs, id, state), ledgers')
    ensures var job := Arenas.Value(jobs, id);
            if state.HoldsCpu() then ledgers'[job.account].runningCpu
                == ledgers[job.account].runningCpu + job.request.cpu
            else ledgers'[job.account].runningCpu + job.request.cpu == ledgers[job.account].runningCpu
  {
    var after := AfterMove(jobs, id, state);
    var slot := after.slots[id.index];
    assert after.slots == jobs.slots[id.index := slot];
    var account := Arenas.Value(jobs, id).account;
    SumCpuFits(after.slots, account);
    forall a | 0 <= a < |ledgers| ensures ledgers'[a].runningCpu == SumCpu(after.slots, a) {
      SumCpuUpdate(jobs.slots, id.index, slot, a);
    }
    SumCpuUpdate(jobs.slots, id.index, slot, account);
  }

  // ---- every transition keeps the invariant ----

  /** A job left alone stays in order while its missing dependencies stay open. */
  lemma JobKept(jobs: Jobs, after: Jobs, done: set<JobId>, x: JobId)
    requires Arenas.Live(jobs, x) && Arenas.Live(after, x) && Arenas.Value(after, x) == Arenas.Value(jobs, x)
    requires JobOk(jobs, done, x)
    requires forall d :: Arenas.Issued(jobs, d) ==> Arenas.Issued(after, d)
    requires StateOf(jobs, x).Blocked? ==> forall d :: d in Arenas.Value(jobs, x).deps && d !in done ==> Open(after, d)
    ensures JobOk(after, done, x)
  {}

  /** A job that ends without completing asks nothing of its dependencies any more. */
  lemma JobEnded(jobs: Jobs, after: Jobs, done: set<JobId>, x: JobId, state: JobState)
    requires Arenas.Live(jobs, x) && Arenas.Live(after, x)
      && Arenas.Value(after, x) == Arenas.Value(jobs, x).(state := state)
    requires JobOk(jobs, done, x) && !StateOf(jobs, x).Completed? && (state.Failed? || state.Cancelled?)
    requires forall d :: Arenas.Issued(jobs, d) ==> Arenas.Issued(after, d)
    ensures JobOk(after, done, x)
  {}

  lemma RestateStore(jobs: Jobs, states: map<JobId, JobState>)
    requires StoreOk(jobs)
    ensures StoreOk(Restate(jobs, states))
  {
    var r := Restate(jobs, states);
    var free: seq<nat> :| Arenas.FreeListExact(jobs.slots, jobs.freeHead, free);
    Arenas.ChainMembers(jobs.slots, jobs.freeHead, free);
    Arenas.ChainFrame(jobs.slots, r.slots, jobs.freeHead, free);
    assert Arenas.FreeListExact(r.slots, r.freeHead, free);
  }

  /** Retiring jobs only drops edges. */
  lemma EdgesShrink(jobs: Jobs, t: Tables, t': Tables, states: map<JobId, JobState>)
    requires |jobs.slots| <= U32_MAX && Shape(t) && Shape(t') && EdgesIssued(jobs, t)
    requires forall j :: Tracked(t', j) ==> Tracked(t, j) && t'.dependents[j.index] == t.dependents[j.index]
    ensures EdgesIssued(Restate(jobs, states), t')
  {
    forall i, x | 0 <= i < |t'.dependents| && x in t'.dependents[i] ensures Arenas.Issued(Restate(jobs, states), x) {
      assert Tracked(t', t'.owner[i]);
    }
  }

  lemma TrackerAfterStates(jobs: Jobs, t: Tables, t': Tables, states: map<JobId, JobState>)
    requires TrackerOk(jobs, t) && Consistent(t', Graph(jobs)) && TracksOpen(Restate(jobs, states), t')
    requires forall j :: Tracked(t', j) ==> Tracked(t, j) && t'.dependents[j.index] == t.dependents[j.index]
    ensures TrackerOk(Restate(jobs, states), t')
  {
    RestateKeepsGraph(jobs, states);
    EdgesShrink(jobs, t, t', states);
  }

  predicate IsOpenMove(jobs: Jobs, id: JobId, state: JobState) {
    && Arenas.Live(jobs, id)
    && (StateOf(jobs, id).Ready? || StateOf(jobs, id).HoldsCpu())
    && (state.Ready? || state.HoldsCpu())
  }

  /** Moves among Running, Preempted and Ready change nothing the history sees. */
  lemma HistoryMove(jobs: Jobs, done: set<JobId>, id: JobId, state: JobState)
    requires StoreOk(jobs) && HistoryOk(jobs, done) && IsOpenMove(jobs, id, state)
    ensures HistoryOk(AfterMove(jobs, id, state), done)
  {
    var after := AfterMove(jobs, id, state);
    assert JobOk(jobs, done, id);
    forall x | Arenas.Live(after, x) ensures JobOk(after, done, x) {
      assert JobOk(jobs, done, x);
      forall y | Open(jobs, y) ensures Open(after, y) {}
    }
  }

  lemma OpenAfterMove(jobs: Jobs, t: Tables, id: JobId, state: JobState)
    requires |jobs.slots| <= U32_MAX && TracksOpen(jobs, t) && IsOpenMove(jobs, id, state)
    ensures TracksOpen(AfterMove(jobs, id, state), t)
  {
    var after := AfterMove(jobs, id, state);
    forall x ensures Tracked(t, x) <==> Open(after, x) {
      assert Tracked(t, x) <==> Open(jobs, x);
    }
  }

  lemma TrackerMove(jobs: Jobs, t: Tables, id: JobId, state: JobState)
    requires StoreOk(jobs) && TrackerOk(jobs, t) && IsOpenMove(jobs, id, state)
    ensures TrackerOk(AfterMove(jobs, id, state), t)
  {
    OpenAfterMove(jobs, t, id, state);
    TrackerAfterStates(jobs, t, t, map[id := state]);
  }

  /** The part of the invariant that neither the queue nor the ledgers take part in. */
  ghost predicate CoreOk(jobs: Jobs, done: set<JobId>, t: Tables) {
    StoreOk(jobs) && HistoryOk(jobs, done) && TrackerOk(jobs, t)
  }

  lemma OpenMove(jobs: Jobs, done: set<JobId>, t: Tables, id: JobId, state: JobState)
    requires CoreOk(jobs, done, t) && IsOpenMove(jobs, id, state)
    ensures CoreOk(AfterMove(jobs, id, state), done, t)
  {
    RestateStore(jobs, map[id := state]);
    HistoryMove(jobs, done, id, state);
    TrackerMove(jobs, t, id, state);
  }

  /** The queue holds what it held, and `id` exactly when `queued`. */
  ghost predicate Requeues(q: Queues, q': Queues, cls: PriorityClass, id: JobId, queued: bool) {
    forall c: PriorityClass, x :: Queued(q', c, x) <==> if x == id then queued && c == cls else Queued(q, c, x)
  }

  lemma QueueMove(jobs: Jobs, q: Queues, q': Queues, id: JobId, state: JobState)
    requires QueueOk(jobs, q) && |jobs.slots| <= U32_MAX && Arenas.Live(jobs, id)
    requires Requeues(q, q', Arenas.Value(jobs, id).priorityClass, id, state.Ready?)
    ensures QueueOk(AfterMove(jobs, id, state), q')
  {
    var after := AfterMove(jobs, id, state);
    forall c: PriorityClass, x ensures Queued(q', c, x) <==>
        In(after, x, JobState.Ready) && Arenas.Value(after, x).priorityClass == c {
      assert Queued(q, c, x) <==> In(jobs, x, JobState.Ready) && Arenas.Value(jobs, x).priorityClass == c;
    }
  }

  // ---- completion ----

  lemma CompletionHistory(jobs: Jobs, done: set<JobId>, id: JobId)
    requires StoreOk(jobs) && HistoryOk(jobs, done) && Arenas.Live(jobs, id) && StateOf(jobs, id).HoldsCpu()
    ensures HistoryOk(AfterCompletion(jobs, done, id), done + {id})
  {
    var after, done' := AfterCompletion(jobs, done, id), done + {id};
    var up := Promoted(jobs, done, id);
    assert JobOk(jobs, done, id);
    assert id !in up;
    forall x | Arenas.Live(after, x) ensures JobOk(after, done', x) {
      assert JobOk(jobs, done, x);
      var j := Arenas.Value(jobs, x);
      if j.state.Blocked? && x !in up {
        var d :| d in j.deps && d !in done && (d != id || exists e :: e in j.deps && e != id && e !in done);
        var e := if d != id then d else var e :| e in j.deps && e != id && e !in done; e;
        assert e in j.deps && e !in done';
        forall y | y in j.deps && y !in done' ensures Open(after, y) {
          assert Open(jobs, y);
        }
      }
    }
  }

  /** An entry of an open job's list is still tracked exactly when it has not completed. */
  lemma OpenDependencies(jobs: Jobs, done: set<JobId>, t: Tables, x: JobId)
    requires HistoryOk(jobs, done) && TracksOpen(jobs, t) && Open(jobs, x)
    ensures forall d :: d in Arenas.Value(jobs, x).deps ==> (Tracked(t, d) <==> d !in done)
    ensures StateOf(jobs, x).Blocked? <==> exists d :: d in Arenas.Value(jobs, x).deps && d !in done
  {
    assert JobOk(jobs, done, x);
    forall d | d in Arenas.Value(jobs, x).deps ensures Tracked(t, d) <==> d !in done {
      assert Tracked(t, d) <==> Open(jobs, d);
      assert Arenas.Live(jobs, d) ==> JobOk(jobs, done, d);
    }
  }

  /** Counting down agrees with looking at every job: the same jobs become Ready. */
  lemma PromotionAgrees(jobs: Jobs, done: set<JobId>, id: JobId, t: Tables, t': Tables, promoted: seq<JobId>)
    requires StoreOk(jobs) && HistoryOk(jobs, done) && TrackerOk(jobs, t)
    requires Arenas.Live(jobs, id) && StateOf(jobs, id).HoldsCpu()
    requires Completes(t, t', id, promoted)
    ensures forall x :: x in promoted <==> x in Promoted(jobs, done, id)
  {
    assert JobOk(jobs, done, id);
    assert Tracked(t, id) <==> Open(jobs, id);
    CompletionKeepsCounters(t, t', id, promoted, Graph(jobs));
    forall x ensures x in promoted <==> x in Promoted(jobs, done, id) {
      PromotionAgreesAt(jobs, done, id, t, x);
    }
  }

  lemma PromotionAgreesAt(jobs: Jobs, done: set<JobId>, id: JobId, t: Tables, x: JobId)
    requires |jobs.slots| <= U32_MAX && HistoryOk(jobs, done) && TracksOpen(jobs, t) && id !in done
    ensures x in Promoted(jobs, done, id) <==>
              && Tracked(t, x)
              && id in Graph(jobs)[x]
              && forall d :: d in Graph(jobs)[x] ==> d == id || !Tracked(t, d)
  {
    assert Tracked(t, x) <==> Open(jobs, x);
    if Open(jobs, x) { OpenDependencies(jobs, done, t, x); }
  }

  lemma OpenAfterCompletion(jobs: Jobs, done: set<JobId>, id: JobId, t: Tables, t': Tables)
    requires |jobs.slots| <= U32_MAX && TracksOpen(jobs, t)
    requires forall j :: Tracked(t', j) <==> Tracked(t, j) && j != id
    ensures TracksOpen(AfterCompletion(jobs, done, id), t')
  {
    var after := AfterCompletion(jobs, done, id);
    forall x ensures Tracked(t', x) <==> Open(after, x) {
      assert Tracked(t, x) <==> Open(jobs, x);
    }
  }

  lemma CompletionTracker(jobs: Jobs, done: set<JobId>, id: JobId, t: Tables, t': Tables, promoted: seq<JobId>)
    requires TrackerOk(jobs, t) && Arenas.Live(jobs, id) && StateOf(jobs, id).HoldsCpu()
    requires Completes(t, t', id, promoted)
    ensures TrackerOk(AfterCompletion(jobs, done, id), t')
  {
    CompletionKeepsCounters(t, t', id, promoted, Graph(jobs));
    assert Tracked(t, id) <==> Open(jobs, id);
    OpenAfterCompletion(jobs, done, id, t, t');
    TrackerAfterStates(jobs, t, t', All(Promoted(jobs, done, id), JobState.Ready)[id := JobState.Completed]);
  }

  lemma RestateTwice(jobs: Jobs, first: map<JobId, JobState>, second: map<JobId, JobState>)
    requires |jobs.slots| <= U32_MAX
    ensures Restate(Restate(jobs, first), second) == Restate(jobs, first + second)
  {
    var a, b := Restate(Restate(jobs, first), second), Restate(jobs, first + second);
    forall i | 0 <= i < |jobs.slots| ensures a.slots[i] == b.slots[i] {}
    assert a.slots == b.slots;
  }

  /** Moving `id` first and the others afterwards is moving them all at once. */
  lemma MoveThenRest(jobs: Jobs, id: JobId, state: JobState, rest: set<JobId>, other: JobState)
    requires |jobs.slots| <= U32_MAX && id !in rest
    ensures Restate(AfterMove(jobs, id, state), All(rest, other)) == Restate(jobs, All(rest, other)[id := state])
  {
    RestateTwice(jobs, map[id := state], All(rest, other));
    assert map[id := state] + All(rest, other) == All(rest, other)[id := state];
  }

  /** Moving `id` off its cpu and, with it, jobs that hold none settles the charges. */
  lemma ChargeAfterEnd(jobs: Jobs, id: JobId, state: JobState, rest: set<JobId>, other: JobState, moved: seq<Ledger>)
    requires StoreOk(jobs) && Arenas.Live(jobs, id) && id !in rest
    requires ChargeOk(AfterMove(jobs, id, state), moved)
    requires !other.HoldsCpu() && forall x :: x in rest && Arenas.Live(jobs, x) ==> !StateOf(jobs, x).HoldsCpu()
    ensures ChargeOk(Restate(jobs, All(rest, other)[id := state]), moved)
  {
    QuietRestate(AfterMove(jobs, id, state), All(rest, other), moved);
    MoveThenRest(jobs, id, state, rest, other);
  }

  /** The live members of `ids` have joined the queue, each in its own class. */
  ghost predicate Joined(jobs: Jobs, q: Queues, ids: set<JobId>, q': Queues) {
    forall c: PriorityClass, x :: Queued(q', c, x) <==>
      Queued(q, c, x) || (x in ids && Arenas.Live(jobs, x) && Arenas.Value(jobs, x).priorityClass == c)
  }

  lemma CompletionQueue(jobs: Jobs, done: set<JobId>, id: JobId, q: Queues, q': Queues)
    requires |jobs.slots| <= U32_MAX && QueueOk(jobs, q) && Arenas.Live(jobs, id) && StateOf(jobs, id).HoldsCpu()
    requires Joined(jobs, q, Promoted(jobs, done, id), q')
    ensures QueueOk(AfterCompletion(jobs, done, id), q')
  {
    var after := AfterCompletion(jobs, done, id);
    forall c: PriorityClass, x ensures Queued(q', c, x) <==>
        In(after, x, JobState.Ready) && Arenas.Value(after, x).priorityClass == c {
      assert Queued(q, c, x) <==> In(jobs, x, JobState.Ready) && Arenas.Value(jobs, x).priorityClass == c;
    }
  }

  // ---- termination ----

  /** Everything doomed is Blocked: cascades never touch a queued or charged job. */
  lemma DoomedAreBlocked(jobs: Jobs, done: set<JobId>, id: JobId)
    requires |jobs.slots| <= U32_MAX && HistoryOk(jobs, done)
    ensures forall x :: x in Doomed(jobs, id) ==> In(jobs, x, JobState.Blocked)
  {
    forall x | x in Doomed(jobs, id) ensures In(jobs, x, JobState.Blocked) {
      var p :| WaitPath(jobs, p) && p[0] == id && p[|p| - 1] == x;
      var n := |p| - 1;
      assert Open(jobs, p[n - 1]) && p[n - 1] in Arenas.Value(jobs, p[n - 1 + 1]).deps;
      assert JobOk(jobs, done, x) && JobOk(jobs, done, p[n - 1]);
    }
  }

  lemma WaitsForStep(jobs: Jobs, a: JobId, b: JobId, c: JobId)
    requires WaitsFor(jobs, a, b) && Open(jobs, c) && b in Arenas.Value(jobs, c).deps
    ensures WaitsFor(jobs, a, c)
  {
    var p :| WaitPath(jobs, p) && p[0] == a && p[|p| - 1] == b;
    var q := p + [c];
    assert WaitPath(jobs, q) && q[0] == a && q[|q| - 1] == c;
  }

  /** Whoever is not doomed keeps only open or completed dependencies. */
  lemma SparedDependencies(jobs: Jobs, done: set<JobId>, id: JobId, state: JobState, x: JobId, d: JobId)
    requires StoreOk(jobs) && HistoryOk(jobs, done) && Open(jobs, id)
    requires In(jobs, x, JobState.Blocked) && x != id && x !in Doomed(jobs, id)
    requires d in Arenas.Value(jobs, x).deps && d !in done
    ensures Open(AfterTermination(jobs, id, state), d)
  {
    assert JobOk(jobs, done, x);
    if d == id {
      assert WaitPath(jobs, [id]);
      WaitsForStep(jobs, id, id, x);
    } else if d in Doomed(jobs, id) {
      WaitsForStep(jobs, id, d, x);
    }
  }

  lemma TerminationHistory(jobs: Jobs, done: set<JobId>, id: JobId, state: JobState)
    requires StoreOk(jobs) && HistoryOk(jobs, done) && Open(jobs, id) && (state.Failed? || state.Cancelled?)
    ensures HistoryOk(AfterTermination(jobs, id, state), done)
  {
    var after := AfterTermination(jobs, id, state);
    forall x | Arenas.Live(after, x) ensures JobOk(after, done, x) {
      JobAfterTermination(jobs, done, id, state, x);
    }
  }

  lemma JobAfterTermination(jobs: Jobs, done: set<JobId>, id: JobId, state: JobState, x: JobId)
    requires StoreOk(jobs) && HistoryOk(jobs, done) && Open(jobs, id) && (state.Failed? || state.Cancelled?)
    requires Arenas.Live(jobs, x)
    ensures JobOk(AfterTermination(jobs, id, state), done, x)
  {
    var after, j := AfterTermination(jobs, id, state), Arenas.Value(jobs, x);
    assert JobOk(jobs, done, x);
    if x == id {
      JobEnded(jobs, after, done, x, state);
    } else if x in Doomed(jobs, id) {
      DoomedAreBlocked(jobs, done, id);
      JobEnded(jobs, after, done, x, JobState.Cancelled);
    } else {
      if j.state.Blocked? {
        forall d | d in j.deps && d !in done ensures Open(after, d) { SparedDependencies(jobs, done, id, state, x, d); }
      }
      JobKept(jobs, after, done, x);
    }
  }

  /** The tracker's reverse edges and the jobs' dependency lists describe the same paths. */
  lemma PathsAgree(jobs: Jobs, t: Tables, p: seq<JobId>)
    requires TrackerOk(jobs, t)
    ensures Path(t, p) <==> WaitPath(jobs, p)
  {
    forall k | 0 <= k < |p| ensures Tracked(t, p[k]) <==> Open(jobs, p[k]) {}
    if forall k :: 0 <= k < |p| ==> Tracked(t, p[k]) {
      forall k | 0 <= k < |p| - 1
        ensures p[k + 1] in t.dependents[p[k].index] <==> p[k] in Arenas.Value(jobs, p[k + 1]).deps
      {
        assert multiset(t.dependents[p[k].index])[p[k + 1]] == multiset(Graph(jobs)[p[k + 1]])[p[k]];
      }
    }
  }

  lemma ReachIsWait(jobs: Jobs, t: Tables, a: JobId, b: JobId)
    requires TrackerOk(jobs, t)
    ensures Reaches(t, a, b) <==> WaitsFor(jobs, a, b)
  {
    if Reaches(t, a, b) {
      var p :| Path(t, p) && p[0] == a && p[|p| - 1] == b;
      PathsAgree(jobs, t, p);
    }
    if WaitsFor(jobs, a, b) {
      var p :| WaitPath(jobs, p) && p[0] == a && p[|p| - 1] == b;
      PathsAgree(jobs, t, p);
    }
  }

  /** The cascade reports exactly the doomed jobs. */
  lemma CascadeAgrees(jobs: Jobs, t: Tables, t': Tables, id: JobId, cascade: seq<JobId>)
    requires TrackerOk(jobs, t) && Terminates(t, t', id, cascade)
    ensures forall x :: x in cascade <==> x in Doomed(jobs, id)
  {
    forall x ensures x in cascade <==> x in Doomed(jobs, id) {
      ReachIsWait(jobs, t, id, x);
      if WaitsFor(jobs, id, x) {
        var p :| WaitPath(jobs, p) && p[0] == id && p[|p| - 1] == x;
        assert Open(jobs, p[|p| - 1]);
      }
    }
  }

  lemma OpenAfterTermination(jobs: Jobs, t: Tables, t': Tables, id: JobId, state: JobState)
    requires |jobs.slots| <= U32_MAX && TracksOpen(jobs, t) && state.IsTerminal() && Open(jobs, id)
    requires forall j :: Tracked(t', j) <==> Tracked(t, j) && !WaitsFor(jobs, id, j)
    ensures TracksOpen(AfterTermination(jobs, id, state), t')
  {
    var after := AfterTermination(jobs, id, state);
    assert WaitPath(jobs, [id]);
    forall x ensures Tracked(t', x) <==> Open(after, x) {
      assert Tracked(t, x) <==> Open(jobs, x);
    }
  }

  lemma TerminationTracker(jobs: Jobs, t: Tables, t': Tables, id: JobId, state: JobState, cascade: seq<JobId>)
    requires TrackerOk(jobs, t) && Open(jobs, id) && state.IsTerminal() && Terminates(t, t', id, cascade)
    ensures TrackerOk(AfterTermination(jobs, id, state), t')
  {
    CascadeKeepsCounters(t, t', id, cascade, Graph(jobs));
    forall j ensures Tracked(t', j) <==> Tracked(t, j) && !WaitsFor(jobs, id, j) { ReachIsWait(jobs, t, id, j); }
    OpenAfterTermination(jobs, t, t', id, state);
    TrackerAfterStates(jobs, t, t', All(Doomed(jobs, id), JobState.Cancelled)[id := state]);
  }

  lemma TerminationQueue(jobs: Jobs, done: set<JobId>, id: JobId, state: JobState, q: Queues, q': Queues)
    requires |jobs.slots| <= U32_MAX && HistoryOk(jobs, done) && QueueOk(jobs, q) && Arenas.Live(jobs, id)
      && state.IsTerminal()
    requires forall c: PriorityClass, x :: Queued(q', c, x) <==> Queued(q, c, x) && x != id
    ensures QueueOk(AfterTermination(jobs, id, state), q')
  {
    var after := AfterTermination(jobs, id, state);
    DoomedAreBlocked(jobs, done, id);
    forall c: PriorityClass, x ensures Queued(q', c, x) <==>
        In(after, x, JobState.Ready) && Arenas.Value(after, x).priorityClass == c {
      assert Queued(q, c, x) <==> In(jobs, x, JobState.Ready) && Arenas.Value(jobs, x).priorityClass == c;
    }
  }
}
