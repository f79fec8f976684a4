/** Packing in order up to the first misfit, and backfill that cannot delay it. */
module Placement {
  import opened Domain
  import opened Slots
  import opened Reservation
  import Arenas

  datatype ReadyEntry = ReadyEntry(cls: PriorityClass, job: JobId, score: Score)

  datatype Decision = Decision(job: JobId, slot: SlotIndex)

  datatype Disposition = Pending | Dispatched | Dropped

  datatype Budget = Budget(maxDecisions: nat, maxScanned: nat)

  type Jobs = Arenas.View<Job>

  // ---- vocabulary ----

  /** Every live candidate asks for something. */
  predicate NonZero(candidates: seq<ReadyEntry>, jobs: Jobs) {
    forall i :: 0 <= i < |candidates| && Arenas.Live(jobs, candidates[i].job) ==>
      Arenas.Value(jobs, candidates[i].job).request != ZERO
  }

  predicate AllLive(decisions: seq<Decision>, jobs: Jobs) {
    forall i :: 0 <= i < |decisions| ==> Arenas.Live(jobs, decisions[i].job)
  }

  function StartedOne(d: Decision, job: Job, now: u64): RunningJob {
    RunningJob(d.job, d.slot, job.request, SaturatingAddTime(now, job.walltime))
  }

  /** The running-set entries that dispatching `decisions` at `now` creates. */
  function Started(decisions: seq<Decision>, jobs: Jobs, now: u64): (r: seq<RunningJob>)
    requires AllLive(decisions, jobs)
    ensures |r| == |decisions|
  {
    seq(|decisions|, i requires 0 <= i < |decisions| => StartedOne(decisions[i], Arenas.Value(jobs, decisions[i].job),
        now))
  }

  lemma StartedConcat(a: seq<Decision>, b: seq<Decision>, jobs: Jobs, now: u64)
    requires AllLive(a, jobs) && AllLive(b, jobs)
    ensures AllLive(a + b, jobs)
    ensures Started(a + b, jobs, now) == Started(a, jobs, now) + Started(b, jobs, now)
  {}

  /** The inventory after charging every decision, `None` unless each one fits when its turn comes. */
  function ChargeAll(slots: seq<WorkerSlot>, decisions: seq<Decision>, jobs: Jobs): (r: Option<seq<WorkerSlot>>)
    requires AllLive(decisions, jobs)
    decreases |decisions|
  {
    if decisions == [] then Some(slots)
    else
      var d := decisions[0];
      var request := Arenas.Value(jobs, d.job).request;
      if FitsNow(slots, request, d.slot) && slots[d.slot].used.Plus(request).InWidth()
      then ChargeAll(Charge(slots, d.slot, request), decisions[1..], jobs)
      else None
  }

  function JobsOf(decisions: seq<Decision>): (r: seq<JobId>)
    ensures |r| == |decisions|
  {
    seq(|decisions|, i requires 0 <= i < |decisions| => decisions[i].job)
  }

  /** The candidates marked as dispatched, in order. */
  function DispatchedJobs(candidates: seq<ReadyEntry>, disposition: seq<Disposition>): seq<JobId>
    requires |candidates| <= |disposition|
  {
    if candidates == [] then []
    else
      var n := |candidates| - 1;
      DispatchedJobs(candidates[..n], disposition) + if disposition[n].Dispatched? then [candidates[n].job] else []
  }

  // ---- packing ----

  datatype PackRun = PackRun(decisions: seq<Decision>, slots: seq<WorkerSlot>, head: Option<nat>, exhausted: bool)

  /** Place live candidates in order, each on its first fit, until one does not fit or the budget ends. */
  function PackFrom(candidates: seq<ReadyEntry>, jobs: Jobs, slots: seq<WorkerSlot>, budget: Budget, i: nat,
                    dispatched: nat, scanned: nat): (r: PackRun)
    requires i <= |candidates| && Sound(slots) && NonZero(candidates, jobs)
    decreases |candidates| - i
  {
    if i == |candidates| then PackRun([], slots, None, false)
    else if dispatched >= budget.maxDecisions || scanned >= budget.maxScanned then PackRun([], slots, None, true)
    else if !Arenas.Live(jobs, candidates[i].job)
        then PackFrom(candidates, jobs, slots, budget, i + 1, dispatched, scanned)
    else
      var request := Arenas.Value(jobs, candidates[i].job).request;
      match FirstFit(slots, request)
      case None => PackRun([], slots, Some(i), false)
      case Some(s) =>
        FittingRequestCanBeCharged(slots, s, request);
        var rest := PackFrom(candidates, jobs, Charge(slots, s, request), budget, i + 1, dispatched + 1, scanned + 1);
        rest.(decisions := [Decision(candidates[i].job, s)] + rest.decisions)
  }

  /** Every placement fits when its turn comes, and the inventory grows by exactly what was placed. */
  lemma {:induction false} PackCharges(candidates: seq<ReadyEntry>, jobs: Jobs, slots: seq<WorkerSlot>, budget: Budget,
                                       i: nat, dispatched: nat, scanned: nat)
    requires i <= |candidates| && Sound(slots) && NonZero(candidates, jobs)
    ensures var r := PackFrom(candidates, jobs, slots, budget, i, dispatched, scanned);
            Sound(r.slots) && AllLive(r.decisions, jobs) && ChargeAll(slots, r.decisions, jobs) == Some(r.slots)
    decreases |candidates| - i
  {
    if i == |candidates| || dispatched >= budget.maxDecisions || scanned >= budget.maxScanned {
    } else if !Arenas.Live(jobs, candidates[i].job) {
      PackCharges(candidates, jobs, slots, budget, i + 1, dispatched, scanned);
    } else {
      var request := Arenas.Value(jobs, candidates[i].job).request;
      var fit := FirstFit(slots, request);
      if fit.Some? {
        FittingRequestCanBeCharged(slots, fit.value, request);
        PackCharges(candidates, jobs, Charge(slots, fit.value, request), budget, i + 1, dispatched + 1, scanned + 1);
      }
    }
  }

  /** Packing never skips: what it places is a prefix of the live candidates, and the head fits nowhere. */
  lemma {:induction false} PackIsPrefix(candidates: seq<ReadyEntry>, jobs: Jobs, slots: seq<WorkerSlot>, budget: Budget,
      i: nat, dispatched: nat, scanned: nat)
    requires i <= |candidates| && Sound(slots) && NonZero(candidates, jobs)
    ensures var r := PackFrom(candidates, jobs, slots, budget, i, dispatched, scanned);
            && JobsOf(r.decisions) <= LiveJobs(candidates, jobs, i)
            && (r.head.Some? ==>
                  && i <= r.head.value < |candidates|
                  && Arenas.Live(jobs, candidates[r.head.value].job)
                  && FirstFit(r.slots, Arenas.Value(jobs, candidates[r.head.value].job).request) == None
                  && |r.decisions| < |LiveJobs(candidates, jobs, i)|
                  && LiveJobs(candidates, jobs, i)[|r.decisions|] == candidates[r.head.value].job)
            && (r.head == None && !r.exhausted ==> JobsOf(r.decisions) == LiveJobs(candidates, jobs, i))
    decreases |candidates| - i
  {
    if i == |candidates| || dispatched >= budget.maxDecisions || scanned >= budget.maxScanned {
    } else if !Arenas.Live(jobs, candidates[i].job) {
      PackIsPrefix(candidates, jobs, slots, budget, i + 1, dispatched, scanned);
    } else {
      var request := Arenas.Value(jobs, candidates[i].job).request;
      var fit := FirstFit(slots, request);
      if fit.Some? {
        FittingRequestCanBeCharged(slots, fit.value, request);
        var slots' := Charge(slots, fit.value, request);
        PackIsPrefix(candidates, jobs, slots', budget, i + 1, dispatched + 1, scanned + 1);
        var rest := PackFrom(candidates, jobs, slots', budget, i + 1, dispatched + 1, scanned + 1);
        var r := PackFrom(candidates, jobs, slots, budget, i, dispatched, scanned);
        assert JobsOf(r.decisions) == [candidates[i].job] + JobsOf(rest.decisions);
      }
    }
  }

  function LiveJobs(candidates: seq<ReadyEntry>, jobs: Jobs, i: nat): seq<JobId>
    requires i <= |candidates|
    decreases |candidates| - i
  {
    if i == |candidates| then []
    else (if Arenas.Live(jobs, candidates[i].job) then [candidates[i].job] else []) + LiveJobs(candidates, jobs, i + 1)
  }

  /** Rewriting one entry past a prefix leaves the prefix's dispatched jobs alone. */
  lemma {:induction false} DispatchedFrame(candidates: seq<ReadyEntry>, before: seq<Disposition>,
      after: seq<Disposition>)
    requires |candidates| <= |before| && |candidates| <= |after|
    requires forall j :: 0 <= j < |candidates| ==> before[j] == after[j]
    ensures DispatchedJobs(candidates, before) == DispatchedJobs(candidates, after)
  {
    if candidates != [] { DispatchedFrame(candidates[..|candidates| - 1], before, after); }
  }

  /** Marking candidate `i` extends the dispatched jobs of the prefix that ends with it. */
  lemma DispatchedStep(candidates: seq<ReadyEntry>, before: seq<Disposition>, i: nat, mark: Disposition)
    requires i < |candidates| <= |before|
    ensures DispatchedJobs(candidates[..i + 1], before[i := mark])
         == DispatchedJobs(candidates[..i], before) + if mark.Dispatched? then [candidates[i].job] else []
  {
    assert candidates[..i + 1][..i] == candidates[..i];
    DispatchedFrame(candidates[..i], before, before[i := mark]);
  }

  /** Pending entries past a prefix add nothing. */
  lemma {:induction false} DispatchedTail(candidates: seq<ReadyEntry>, disposition: seq<Disposition>, i: nat)
    requires i <= |candidates| <= |disposition|
    requires forall j :: i <= j < |candidates| ==> !disposition[j].Dispatched?
    ensures DispatchedJobs(candidates, disposition) == DispatchedJobs(candidates[..i], disposition)
    decreases |candidates|
  {
    if i < |candidates| {
      var n := |candidates| - 1;
      DispatchedTail(candidates[..n], disposition, i);
      assert candidates[..n][..i] == candidates[..i];
    } else {
      assert candidates[..i] == candidates;
    }
  }

  lemma JobsOfSnoc(decisions: seq<Decision>, d: Decision)
    ensures JobsOf(decisions + [d]) == JobsOf(decisions) + [d.job]
  {}

  /** Marks only what it handled: dropped entries are stale, dispatched ones match `added` in order. */
  ghost predicate Marks(candidates: seq<ReadyEntry>, jobs: Jobs, disposition: seq<Disposition>, added: seq<Decision>) {
    && |candidates| <= |disposition|
    && DispatchedJobs(candidates, disposition) == JobsOf(added)
    && forall j :: 0 <= j < |candidates| && disposition[j].Dropped? ==> !Arenas.Live(jobs, candidates[j].job)
  }

  /** `marks` follows the dispatch decisions over the first `i` candidates and is untouched past them. */
  ghost predicate MarksUpTo(candidates: seq<ReadyEntry>, jobs: Jobs, marks: seq<Disposition>, added: seq<Decision>,
                            i: nat) {
    var marked := MarkedTo(candidates, jobs, marks, added, i);
    marked
  }

  ghost predicate MarkedTo(candidates: seq<ReadyEntry>, jobs: Jobs, marks: seq<Disposition>, added: seq<Decision>,
                           i: nat) {
    && i <= |candidates| == |marks|
    && DispatchedJobs(candidates[..i], marks) == JobsOf(added)
    && (forall j :: i <= j < |marks| ==> marks[j].Pending?)
    && (forall j :: 0 <= j < i && marks[j].Dropped? ==> !Arenas.Live(jobs, candidates[j].job))
  }

  lemma MarkNext(candidates: seq<ReadyEntry>, jobs: Jobs, marks: seq<Disposition>, added: seq<Decision>, i: nat,
                 mark: Disposition, slot: SlotIndex)
    requires MarksUpTo(candidates, jobs, marks, added, i) && i < |candidates|
    requires mark.Dropped? ==> !Arenas.Live(jobs, candidates[i].job)
    ensures MarksUpTo(candidates, jobs, marks[i := mark],
                      if mark.Dispatched? then added + [Decision(candidates[i].job, slot)] else added, i + 1)
  {
    DispatchedStep(candidates, marks, i, mark);
    JobsOfSnoc(added, Decision(candidates[i].job, slot));
  }

  lemma MarksDone(candidates: seq<ReadyEntry>, jobs: Jobs, marks: seq<Disposition>, added: seq<Decision>, i: nat)
    requires MarksUpTo(candidates, jobs, marks, added, i)
    ensures Marks(candidates, jobs, marks, added)
  {
    DispatchedTail(candidates, marks, i);
  }

  function Fresh(n: nat): (r: seq<Disposition>)
    ensures |r| == n && forall j :: 0 <= j < n ==> r[j].Pending?
  {
    seq(n, _ => Pending)
  }

  /** `run` is what is left of `goal` once the decisions in `added` are made. */
  ghost predicate Continues(goal: PackRun, added: seq<Decision>, run: PackRun) {
    goal == run.(decisions := added + run.decisions)
  }

  lemma ContinuesStep(goal: PackRun, added: seq<Decision>, d: Decision, run: PackRun)
    requires Continues(goal, added, run.(decisions := [d] + run.decisions))
    ensures Continues(goal, added + [d], run)
  {
    assert added + ([d] + run.decisions) == added + [d] + run.decisions;
  }

  method Pack(candidates: seq<ReadyEntry>, jobs: Jobs, inventory: SlotInventory, budget: Budget)
    returns (added: seq<Decision>, head: Option<nat>, exhausted: bool, marks: seq<Disposition>)
    requires Sound(inventory.slots) && NonZero(candidates, jobs)
    modifies inventory
    ensures PackRun(added, inventory.slots, head, exhausted)
              == PackFrom(candidates, jobs, old(inventory.slots), budget, 0, 0, 0)
    ensures Marks(candidates, jobs, marks, added)
    ensures head.Some? ==> MarksUpTo(candidates, jobs, marks, added, head.value)
  {
    added, head, exhausted, marks := [], None, false, Fresh(|candidates|);
    var dispatched, scanned := 0, 0;
    ghost var goal := PackFrom(candidates, jobs, inventory.slots, budget, 0, 0, 0);
    for i := 0 to |candidates|
      invariant Sound(inventory.slots)
      invariant head == None && !exhausted
      invariant Continues(goal, added, PackFrom(candidates, jobs, inventory.slots, budget, i, dispatched, scanned))
      invariant MarksUpTo(candidates, jobs, marks, added, i)
    {
      if dispatched >= budget.maxDecisions || scanned >= budget.maxScanned {
        MarksDone(candidates, jobs, marks, added, i);
        exhausted := true;
        return;
      }
      var entry := candidates[i];
      var found := Arenas.Get(jobs, entry.job);
      if found == None {
        MarkNext(candidates, jobs, marks, added, i, Dropped, 0);
        marks := marks[i := Dropped];
        continue;
      }
      scanned := scanned + 1;
      var request := found.value.request;
      var fit := FirstFit(inventory.slots, request);
      if fit == None {
        MarksDone(candidates, jobs, marks, added, i);
        head := Some(i);
        return;
      }
      FittingRequestCanBeCharged(inventory.slots, fit.value, request);
      var r := inventory.TryAllocate(fit.value, request);
      ContinuesStep(goal, added, Decision(entry.job, fit.value),
                    PackFrom(candidates, jobs, inventory.slots, budget, i + 1, dispatched + 1, scanned));
      MarkNext(candidates, jobs, marks, added, i, Dispatched, fit.value);
      added := added + [Decision(entry.job, fit.value)];
      marks := marks[i := Dispatched];
      dispatched := dispatched + 1;
    }
    MarksDone(candidates, jobs, marks, added, |candidates|);
  }

  // ---- backfill ----

  datatype BackfillRun = BackfillRun(decisions: seq<Decision>, slots: seq<WorkerSlot>)

  /** Running `extra` next does not push the head past `limit`, judged with `extra` alone added. */
  ghost predicate Harmless(head: Resources, slots: seq<WorkerSlot>, running: seq<RunningJob>, now: u64, limit: u64,
                           extra: RunningJob)
    requires extra.slot < |slots| && slots[extra.slot].used.Plus(extra.resources).InWidth()
  {
    extra.endsAt <= limit || MetBy(head, Charge(slots, extra.slot, extra.resources), running + [extra], now, limit)
  }

  /** What stays fixed while one backfill pass runs. */
  datatype Gap = Gap(candidates: seq<ReadyEntry>, jobs: Jobs, head: Resources, running: seq<RunningJob>, now: u64,
                     limit: u64, budget: Budget) {
    predicate Ok() { NonZero(candidates, jobs) }
  }

  /** The admission rule, candidate by candidate: fits now, and harmless to the head. */
  ghost function BackfillFrom(g: Gap, slots: seq<WorkerSlot>, i: nat, backfilled: nat,
                              considered: nat): (r: BackfillRun)
    requires g.Ok() && i <= |g.candidates| && Sound(slots)
    decreases |g.candidates| - i
  {
    if i == |g.candidates| || backfilled >= g.budget.maxDecisions || considered >= g.budget.maxScanned
        then BackfillRun([], slots)
    else if !Arenas.Live(g.jobs, g.candidates[i].job) then BackfillFrom(g, slots, i + 1, backfilled, considered)
    else
      var job := Arenas.Value(g.jobs, g.candidates[i].job);
      var fit := FirstFit(slots, job.request);
      if fit == None then BackfillFrom(g, slots, i + 1, backfilled, considered + 1)
      else
        FittingRequestCanBeCharged(slots, fit.value, job.request);
        var d := Decision(g.candidates[i].job, fit.value);
        if Harmless(g.head, slots, g.running, g.now, g.limit, StartedOne(d, job, g.now)) then
          var rest := BackfillFrom(g, Charge(slots, fit.value, job.request), i + 1, backfilled + 1, considered + 1);
          rest.(decisions := [d] + rest.decisions)
        else BackfillFrom(g, slots, i + 1, backfilled, considered + 1)
  }

  /** Only admitted jobs are charged: a refused candidate leaves the inventory exactly as found. */
  lemma {:induction false} BackfillCharges(g: Gap, slots: seq<WorkerSlot>, i: nat, backfilled: nat, considered: nat)
    requires g.Ok() && i <= |g.candidates| && Sound(slots)
    ensures var r := BackfillFrom(g, slots, i, backfilled, considered);
            Sound(r.slots) && AllLive(r.decisions, g.jobs) && ChargeAll(slots, r.decisions, g.jobs) == Some(r.slots)
    decreases |g.candidates| - i
  {
    if i == |g.candidates| || backfilled >= g.budget.maxDecisions || considered >= g.budget.maxScanned {
    } else if !Arenas.Live(g.jobs, g.candidates[i].job) {
      BackfillCharges(g, slots, i + 1, backfilled, considered);
    } else {
      var job := Arenas.Value(g.jobs, g.candidates[i].job);
      var fit := FirstFit(slots, job.request);
      BackfillCharges(g, slots, i + 1, backfilled, considered + 1);
      if fit.Some? {
        FittingRequestCanBeCharged(slots, fit.value, job.request);
        BackfillCharges(g, Charge(slots, fit.value, job.request), i + 1, backfilled + 1, considered + 1);
      }
    }
  }

  /** One admission keeps the limit even though earlier admissions were not in the check's running set. */
  lemma AdmissionKeepsLimit(head: Resources, slots: seq<WorkerSlot>, running: seq<RunningJob>,
                            admitted: seq<RunningJob>, now: u64, limit: u64, extra: RunningJob)
    requires Sound(slots) && extra.resources != ZERO && FitsNow(slots, extra.resources, extra.slot)
    requires MetBy(head, slots, running + admitted, now, limit)
    ensures slots[extra.slot].used.Plus(extra.resources).InWidth()
    ensures Harmless(head, slots, running, now, limit, extra) ==>
              MetBy(head, Charge(slots, extra.slot, extra.resources), running + (admitted + [extra]), now, limit)
  {
    FittingRequestCanBeCharged(slots, extra.slot, extra.resources);
    assert running + (admitted + [extra]) == running + admitted + [extra];
    if extra.endsAt <= limit {
      ShortJobKeepsLimit(head, slots, running + admitted, now, limit, extra);
    } else if Harmless(head, slots, running, now, limit, extra) {
      MoreRunningNeverLater(head, Charge(slots, extra.slot, extra.resources), running, admitted, [extra], now, limit);
    }
  }

  /** Backfill never delays the head: with every admitted job running, the head still starts by its reservation. */
  lemma {:induction false} BackfillNeverDelaysHead(g: Gap, slots: seq<WorkerSlot>, admitted: seq<RunningJob>, i: nat,
      backfilled: nat, considered: nat)
    requires g.Ok() && i <= |g.candidates| && Sound(slots)
    requires MetBy(g.head, slots, g.running + admitted, g.now, g.limit)
    ensures var r := BackfillFrom(g, slots, i, backfilled, considered);
            && AllLive(r.decisions, g.jobs)
            && MetBy(g.head, r.slots, g.running + (admitted + Started(r.decisions, g.jobs, g.now)), g.now, g.limit)
    decreases |g.candidates| - i
  {
    BackfillCharges(g, slots, i, backfilled, considered);
    var r := BackfillFrom(g, slots, i, backfilled, considered);
    if i == |g.candidates| || backfilled >= g.budget.maxDecisions || considered >= g.budget.maxScanned {
      assert admitted + Started(r.decisions, g.jobs, g.now) == admitted;
    } else if !Arenas.Live(g.jobs, g.candidates[i].job) {
      BackfillNeverDelaysHead(g, slots, admitted, i + 1, backfilled, considered);
    } else {
      var job := Arenas.Value(g.jobs, g.candidates[i].job);
      var fit := FirstFit(slots, job.request);
      BackfillNeverDelaysHead(g, slots, admitted, i + 1, backfilled, considered + 1);
      if fit.Some? {
        FittingRequestCanBeCharged(slots, fit.value, job.request);
        var d := Decision(g.candidates[i].job, fit.value);
        var extra := StartedOne(d, job, g.now);
        if Harmless(g.head, slots, g.running, g.now, g.limit, extra) {
          AdmissionKeepsLimit(g.head, slots, g.running, admitted, g.now, g.limit, extra);
          var slots' := Charge(slots, fit.value, job.request);
          BackfillNeverDelaysHead(g, slots', admitted + [extra], i + 1, backfilled + 1, considered + 1);
          var rest := BackfillFrom(g, slots', i + 1, backfilled + 1, considered + 1);
          assert r.decisions == [d] + rest.decisions && r.slots == rest.slots;
          assert admitted + Started(r.decisions, g.jobs,
                                    g.now) == admitted + [extra] + Started(rest.decisions, g.jobs, g.now);
        }
      }
    }
  }

  /** Tries `extra` on the inventory and keeps it exactly when it is harmless to the head. */
  method TryCandidate(head: Resources, inventory: SlotInventory, running: seq<RunningJob>, now: u64, limit: u64,
                      extra: RunningJob)
    returns (harmless: bool)
    requires Sound(inventory.slots) && extra.resources != ZERO && FitsNow(inventory.slots, extra.resources, extra.slot)
    modifies inventory
    ensures old(inventory.slots)[extra.slot].used.Plus(extra.resources).InWidth()
    ensures harmless <==> Harmless(head, old(inventory.slots), running, now, limit, extra)
    ensures inventory.slots == if harmless then Charge(old(inventory.slots), extra.slot, extra.resources)
              else old(inventory.slots)
  {
    FittingRequestCanBeCharged(inventory.slots, extra.slot, extra.resources);
    var r := inventory.TryAllocate(extra.slot, extra.resources);
    if extra.endsAt <= limit { return true; }
    var recomputed := ReservationTime(head, inventory.slots, running + [extra], now);
    ReservationMetBy(head, inventory.slots, running + [extra], now, recomputed, limit);
    harmless := recomputed.Some? && recomputed.value <= limit;
    if !harmless {
      r := inventory.Release(extra.slot, extra.resources);
    }
  }

  ghost predicate BackfillContinues(goal: BackfillRun, added: seq<Decision>, run: BackfillRun) {
    goal == run.(decisions := added + run.decisions)
  }

  lemma BackfillContinuesStep(goal: BackfillRun, added: seq<Decision>, d: Decision, run: BackfillRun)
    requires BackfillContinues(goal, added, run.(decisions := [d] + run.decisions))
    ensures BackfillContinues(goal, added + [d], run)
  {
    assert added + ([d] + run.decisions) == added + [d] + run.decisions;
  }

  lemma JoinOneMore(packed: seq<Decision>, added: seq<Decision>, d: Decision)
    ensures packed + added + [d] == packed + (added + [d])
  {}

  /** One candidate: placed where it fits if that cannot delay the head, refused otherwise. */
  method TryEntry(g: Gap, inventory: SlotInventory, i: nat, ghost backfilled: nat,
                  ghost considered: nat) returns (placed: Option<SlotIndex>)
    requires g.Ok() && i < |g.candidates| && Sound(inventory.slots) && Arenas.Live(g.jobs, g.candidates[i].job)
    requires backfilled < g.budget.maxDecisions && considered < g.budget.maxScanned
    modifies inventory
    ensures Sound(inventory.slots)
    ensures var goal := BackfillFrom(g, old(inventory.slots), i, backfilled, considered);
            if placed == None then goal == BackfillFrom(g, inventory.slots, i + 1, backfilled, considered + 1)
            else BackfillContinues(goal, [Decision(g.candidates[i].job, placed.value)],
                                   BackfillFrom(g, inventory.slots, i + 1, backfilled + 1, considered + 1))
  {
    var job := Arenas.Value(g.jobs, g.candidates[i].job);
    placed := FirstFit(inventory.slots, job.request);
    if placed.Some? {
      var d := Decision(g.candidates[i].job, placed.value);
      var harmless := TryCandidate(g.head, inventory, g.running, g.now, g.limit, StartedOne(d, job, g.now));
      if !harmless { placed := None; }
    }
  }

  /** The loop over the candidates behind the head. */
  method BackfillLoop(g: Gap, inventory: SlotInventory, first: nat, packed: seq<Decision>, packMarks: seq<Disposition>)
    returns (added: seq<Decision>, marks: seq<Disposition>)
    requires g.Ok() && first <= |g.candidates| && Sound(inventory.slots)
    requires MarksUpTo(g.candidates, g.jobs, packMarks, packed, first)
    modifies inventory
    ensures Marks(g.candidates, g.jobs, marks, packed + added)
    ensures BackfillRun(added, inventory.slots) == BackfillFrom(g, old(inventory.slots), first, 0, 0)
  {
    added, marks := [], packMarks;
    var backfilled, considered := 0, 0;
    ghost var all := packed;
    ghost var goal := BackfillFrom(g, inventory.slots, first, 0, 0);
    for i := first to |g.candidates|
      invariant Sound(inventory.slots)
      invariant BackfillContinues(goal, added, BackfillFrom(g, inventory.slots, i, backfilled, considered))
      invariant all == packed + added
      invariant MarksUpTo(g.candidates, g.jobs, marks, all, i)
    {
      if backfilled >= g.budget.maxDecisions || considered >= g.budget.maxScanned {
        MarksDone(g.candidates, g.jobs, marks, all, i);
        return;
      }
      var entry := g.candidates[i];
      var found := Arenas.Get(g.jobs, entry.job);
      if found == None {
        MarkNext(g.candidates, g.jobs, marks, all, i, Dropped, 0);
        marks := marks[i := Dropped];
        continue;
      }
      var placed := TryEntry(g, inventory, i, backfilled, considered);
      considered := considered + 1;
      if placed == None {
        MarkNext(g.candidates, g.jobs, marks, all, i, Pending, 0);
        marks := marks[i := Pending];
      } else {
        var d := Decision(entry.job, placed.value);
        BackfillContinuesStep(goal, added, d, BackfillFrom(g, inventory.slots, i + 1, backfilled + 1, considered));
        MarkNext(g.candidates, g.jobs, marks, all, i, Dispatched, placed.value);
        JoinOneMore(packed, added, d);
        all, added, backfilled, marks := all + [d], added + [d], backfilled + 1, marks[i := Dispatched];
      }
    }
    MarksDone(g.candidates, g.jobs, marks, all, |g.candidates|);
  }

  /** Backfill behind the head: nothing without a reservation, otherwise what the admission rule lets in. */
  method EasyBackfill(candidates: seq<ReadyEntry>, headIndex: nat, jobs: Jobs, inventory: SlotInventory,
                      running: seq<RunningJob>,
                      now: u64, budget: Budget, packed: seq<Decision>, packMarks: seq<Disposition>)
    returns (added: seq<Decision>, reservation: Option<u64>, marks: seq<Disposition>)
    requires headIndex < |candidates| && Sound(inventory.slots) && NonZero(candidates, jobs)
    requires MarksUpTo(candidates, jobs, packMarks, packed, headIndex)
    modifies inventory
    ensures Marks(candidates, jobs, marks, packed + added)
    ensures var id := candidates[headIndex].job;
            if Arenas.Live(jobs, id)
            then IsReservation(Arenas.Value(jobs, id).request, old(inventory.slots), running, now, reservation)
            else reservation == None
    ensures reservation == None ==> added == [] && inventory.slots == old(inventory.slots)
    ensures reservation.Some? ==>
              var g := Gap(candidates, jobs, Arenas.Value(jobs, candidates[headIndex].job).request, running, now,
                           reservation.value, budget);
              BackfillRun(added, inventory.slots) == BackfillFrom(g, old(inventory.slots), headIndex + 1, 0, 0)
  {
    added, reservation, marks := [], None, packMarks;
    assert packed + added == packed;
    MarksDone(candidates, jobs, marks, packed, headIndex);
    var headJob := Arenas.Get(jobs, candidates[headIndex].job);
    if headJob == None { return; }
    reservation := ReservationTime(headJob.value.request, inventory.slots, running, now);
    if reservation == None { return; }
    MarkNext(candidates, jobs, marks, packed, headIndex, Pending, 0);
    assert marks[headIndex := Pending] == marks;
    var g := Gap(candidates, jobs, headJob.value.request, running, now, reservation.value, budget);
    added, marks := BackfillLoop(g, inventory, headIndex + 1, packed, packMarks);
  }
}
