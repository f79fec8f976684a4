/** Preemption: which running jobs to evict, on one slot, so that a head of higher class fits. */
module Preemption {
  import opened Domain
  import Arenas
  import opened Slots
  import opened Reservation
  import opened Lifecycle
  import opened Priority
  import opened Bindings

  datatype Eviction = Eviction(job: JobId, slot: SlotIndex)

  datatype Victim = Victim(cls: PriorityClass, started: u64, job: JobId, resources: Resources)

  /** A running job of strictly lower class that is not immune yet. */
  predicate Eligible(jobs: Jobs, head: Job, maxPreemptions: nat, id: JobId) {
    && In(jobs, id, JobState.Running)
    && Arenas.Value(jobs, id).priorityClass.Ordinal() < head.priorityClass.Ordinal()
    && Arenas.Value(jobs, id).preemptions < maxPreemptions
  }

  function VictimOf(r: RunningJob, job: Job): Victim {
    Victim(job.priorityClass, Monus(r.endsAt, job.walltime), r.job, r.resources)
  }

  /** The eligible jobs of one slot, in dispatch order. */
  function VictimsOn(jobs: Jobs, head: Job, maxPreemptions: nat, running: seq<RunningJob>,
                     slot: SlotIndex): seq<Victim> {
    if running == [] then []
    else
      var r, rest := running[|running| - 1], VictimsOn(jobs, head, maxPreemptions, running[..|running| - 1], slot);
      if r.slot == slot && Eligible(jobs, head, maxPreemptions,
                                    r.job) then rest + [VictimOf(r, Arenas.Value(jobs, r.job))] else rest
  }

  lemma {:induction false} VictimsAreEligible(jobs: Jobs, head: Job, maxPreemptions: nat, running: seq<RunningJob>,
      slot: SlotIndex, v: Victim)
    ensures v in VictimsOn(jobs, head, maxPreemptions, running, slot) <==>
            exists r :: r in running && r.slot == slot && Eligible(jobs, head, maxPreemptions, r.job)
                && v == VictimOf(r, Arenas.Value(jobs, r.job))
  {
    if running != [] {
      var n := |running| - 1;
      VictimsAreEligible(jobs, head, maxPreemptions, running[..n], slot, v);
      assert forall r :: r in running <==> r in running[..n] || r == running[n];
    }
  }

  predicate DifferentJobs(vs: seq<Victim>) { forall i, j :: 0 <= i < j < |vs| ==> vs[i].job != vs[j].job }

  lemma {:induction false} AtMostOnce(vs: seq<Victim>, v: Victim)
    requires DifferentJobs(vs)
    ensures multiset(vs)[v] <= 1
  {
    if vs != [] {
      var n := |vs| - 1;
      assert vs == vs[..n] + [vs[n]];
      AtMostOnce(vs[..n], v);
      if v == vs[n] { assert v !in vs[..n]; }
    }
  }

  lemma PermutedDiffer(vs: seq<Victim>, ws: seq<Victim>)
    requires DifferentJobs(vs) && multiset(vs) == multiset(ws)
    ensures DifferentJobs(ws)
  {
    forall i, j | 0 <= i < j < |ws| ensures ws[i].job != ws[j].job {
      if ws[i] == ws[j] {
        TwiceCounts(ws, i, j);
        AtMostOnce(vs, ws[i]);
      } else {
        assert ws[i] in multiset(vs) && ws[j] in multiset(vs);
      }
    }
  }

  lemma TwiceCounts(ws: seq<Victim>, i: nat, j: nat)
    requires i < j < |ws| && ws[i] == ws[j]
    ensures multiset(ws)[ws[i]] >= 2
  {
    assert ws == ws[..j] + ws[j..] && ws[i] in ws[..j] && ws[j] in ws[j..];
  }

  // ---- the order victims go in ----

  /** `a` may be evicted before `b`. */
  predicate Sooner(a: Victim, b: Victim) {
    a.cls.Ordinal() < b.cls.Ordinal() || (a.cls == b.cls && a.started >= b.started)
  }

  predicate Arranged(vs: seq<Victim>) { forall i, j :: 0 <= i < j < |vs| ==> Sooner(vs[i], vs[j]) }

  predicate SameKey(a: Victim, b: Victim) { a.cls == b.cls && a.started == b.started }

  /** The members of `vs` that tie with `key`, in order. */
  function Ties(vs: seq<Victim>, key: Victim): seq<Victim> {
    if vs == [] then []
    else Ties(vs[..|vs| - 1], key) + if SameKey(vs[|vs| - 1], key) then [vs[|vs| - 1]] else []
  }

  lemma {:induction false} TiesConcat(a: seq<Victim>, b: seq<Victim>, key: Victim)
    ensures Ties(a + b, key) == Ties(a, key) + Ties(b, key)
    decreases |b|
  {
    if b == [] {
      assert a + b == a;
    } else {
      var n, ab := |b| - 1, a + b;
      TiesConcat(a, b[..n], key);
      assert ab[..|ab| - 1] == a + b[..n] && ab[|ab| - 1] == b[n];
    }
  }

  lemma {:induction false} TiesNone(vs: seq<Victim>, key: Victim)
    requires forall v :: v in vs ==> !SameKey(v, key)
    ensures Ties(vs, key) == []
  {
    if vs != [] {
      assert vs[|vs| - 1] in vs;
      TiesNone(vs[..|vs| - 1], key);
    }
  }

  /** A stable sort: the same victims, arranged, ties in their original order. */
  ghost predicate Sorts(vs: seq<Victim>, out: seq<Victim>) {
    && Arranged(out) && |out| == |vs|
    && multiset(out) == multiset(vs)
    && forall key: Victim :: Ties(out, key) == Ties(vs, key)
  }

  /** Files `v` behind everything that may go before it. */
  method Insert(sorted: seq<Victim>, v: Victim) returns (out: seq<Victim>)
    requires Arranged(sorted)
    ensures Arranged(out) && |out| == |sorted| + 1
    ensures multiset(out) == multiset(sorted) + multiset{v}
    ensures forall key: Victim :: Ties(out, key) == Ties(sorted + [v], key)
  {
    var k := |sorted|;
    while k > 0 && !Sooner(sorted[k - 1], v)
      invariant 0 <= k <= |sorted| && forall i :: k <= i < |sorted| ==> !Sooner(sorted[i], v)
    {
      k := k - 1;
    }
    out := sorted[..k] + [v] + sorted[k..];
    FiledArranged(sorted, v, k);
    FiledTies(sorted, v, k);
  }

  lemma FiledArranged(sorted: seq<Victim>, v: Victim, k: nat)
    requires k <= |sorted| && Arranged(sorted)
    requires k > 0 ==> Sooner(sorted[k - 1], v)
    requires forall i :: k <= i < |sorted| ==> !Sooner(sorted[i], v)
    ensures Arranged(sorted[..k] + [v] + sorted[k..])
  {
    forall i | 0 <= i < k ensures Sooner(sorted[i], v) {
      if i < k - 1 { SoonerTransitive(sorted[i], sorted[k - 1], v); }
    }
    forall i | k <= i < |sorted| ensures Sooner(v, sorted[i]) { SoonerTotal(sorted[i], v); }
    var out := sorted[..k] + [v] + sorted[k..];
    forall i, j | 0 <= i < j < |out| ensures Sooner(out[i], out[j]) {
      assert out[i] == if i < k then sorted[i] else if i == k then v else sorted[i - 1];
      assert out[j] == if j < k then sorted[j] else if j == k then v else sorted[j - 1];
    }
  }

  lemma SoonerTransitive(a: Victim, b: Victim, c: Victim)
    requires Sooner(a, b) && Sooner(b, c)
    ensures Sooner(a, c)
  {}

  lemma SoonerTotal(a: Victim, b: Victim)
    ensures Sooner(a, b) || Sooner(b, a)
    ensures Sooner(a, b) && Sooner(b, a) ==> SameKey(a, b)
  {}

  lemma FiledTies(sorted: seq<Victim>, v: Victim, k: nat)
    requires k <= |sorted| && forall i :: k <= i < |sorted| ==> !Sooner(sorted[i], v)
    ensures var out := sorted[..k] + [v] + sorted[k..];
            && multiset(out) == multiset(sorted) + multiset{v}
            && (forall key: Victim :: Ties(out, key) == Ties(sorted + [v], key))
  {
    var front, back := sorted[..k], sorted[k..];
    assert sorted == front + back;
    forall key: Victim ensures Ties(front + [v] + back, key) == Ties(sorted + [v], key) {
      InsertTies(front, v, back, key);
    }
  }

  lemma InsertTies(front: seq<Victim>, v: Victim, back: seq<Victim>, key: Victim)
    requires forall i :: 0 <= i < |back| ==> !Sooner(back[i], v)
    ensures Ties(front + [v] + back, key) == Ties(front + back + [v], key)
  {
    TiesConcat(front + [v], back, key);
    TiesConcat(front, [v], key);
    TiesConcat(front + back, [v], key);
    TiesConcat(front, back, key);
    if SameKey(v, key) {
      TiesNone(back, key);
    } else {
      TiesNone([v], key);
    }
  }

  method Sort(vs: seq<Victim>) returns (out: seq<Victim>)
    ensures Sorts(vs, out)
  {
    out := [];
    for n := 0 to |vs|
      invariant Sorts(vs[..n], out)
    {
      ghost var was := out;
      out := Insert(out, vs[n]);
      assert vs[..n + 1] == vs[..n] + [vs[n]];
      forall key: Victim ensures Ties(out, key) == Ties(vs[..n + 1], key) {
        TiesConcat(was, [vs[n]], key);
        TiesConcat(vs[..n], [vs[n]], key);
      }
    }
    assert vs[..|vs|] == vs;
  }

  // ---- how many of them ----

  /** Free capacity once the first `k` victims are gone. */
  function Freed(free: Resources, vs: seq<Victim>, k: nat): Resources
    requires k <= |vs|
  {
    if k == 0 then free else SaturatingAdd(Freed(free, vs, k - 1), vs[k - 1].resources)
  }

  /** Runtime thrown away with the first `k` victims. */
  function Lost(vs: seq<Victim>, k: nat, now: u64): u64
    requires k <= |vs|
  {
    if k == 0 then 0 else Min(Lost(vs, k - 1, now) + Monus(now, vs[k - 1].started), U64_MAX)
  }

  /** The first `k` victims make room, and no fewer do. */
  predicate Suffices(request: Resources, free: Resources, vs: seq<Victim>, k: nat) {
    && 0 < k <= |vs|
    && request.FitsWithin(Freed(free, vs, k))
    && forall j :: 0 <= j < k ==> !request.FitsWithin(Freed(free, vs, j))
  }

  method Count(request: Resources, free: Resources, vs: seq<Victim>,
               now: u64) returns (count: nat, lost: u64, room: bool)
    ensures count <= |vs| && lost == Lost(vs, count, now)
    ensures room == request.FitsWithin(Freed(free, vs, count))
    ensures forall j :: 0 <= j < count ==> !request.FitsWithin(Freed(free, vs, j))
    ensures !room ==> count == |vs|
  {
    var freed := free;
    count, lost := 0, 0;
    while count < |vs| && !request.FitsWithin(freed)
      invariant count <= |vs| && freed == Freed(free, vs, count) && lost == Lost(vs, count, now)
      invariant forall j :: 0 <= j < count ==> !request.FitsWithin(Freed(free, vs, j))
    {
      freed := SaturatingAdd(freed, vs[count].resources);
      lost := Min(lost + Monus(now, vs[count].started), U64_MAX);
      count := count + 1;
    }
    room := request.FitsWithin(freed);
  }

  lemma {:induction false} FreedMonotone(free: Resources, vs: seq<Victim>, j: nat, k: nat)
    requires j <= k <= |vs|
    ensures Freed(free, vs, j).FitsWithin(Freed(free, vs, k))
    decreases k
  {
    if j < k { FreedMonotone(free, vs, j, k - 1); }
  }

  // ---- the plan ----

  /** A feasible plan for one slot: its victims in eviction order and how many of them go. */
  datatype Offer = Offer(vs: seq<Victim>, count: nat, lost: u64)

  ghost predicate Offers(jobs: Jobs, head: Job, maxPreemptions: nat, running: seq<RunningJob>, slots: seq<WorkerSlot>,
                         slot: SlotIndex, now: u64, o: Offer) {
    && slot < |slots| && head.request.FitsWithin(slots[slot].capacity)
    && Sorts(VictimsOn(jobs, head, maxPreemptions, running, slot), o.vs)
    && Suffices(head.request, slots[slot].Free(), o.vs, o.count)
    && o.lost == Lost(o.vs, o.count, now)
  }

  /** Fewer victims, then less runtime lost. */
  predicate Cheaper(a: Offer, b: Offer) { a.count < b.count || (a.count == b.count && a.lost < b.lost) }

  /** No slot below `n` offers anything cheaper, and ties went to the lowest slot. */
  ghost predicate BestBelow(jobs: Jobs, head: Job, maxPreemptions: nat, running: seq<RunningJob>,
                            slots: seq<WorkerSlot>, n: nat, now: u64, best: Option<(SlotIndex, Offer)>) {
    match best
    case None => forall s: nat, o :: s < n ==> !Offers(jobs, head, maxPreemptions, running, slots, s, now, o)
    case Some(b) =>
      && b.0 < n && Offers(jobs, head, maxPreemptions, running, slots, b.0, now, b.1)
      && forall s: nat, o :: s < n && Offers(jobs, head, maxPreemptions, running, slots, s, now, o) ==>
           !Cheaper(o, b.1) && (s < b.0 ==> Cheaper(b.1, o))
  }

  /** Two arrangements of the same victims with the same ties are the same list. */
  lemma {:induction false} SortsIsUnique(vs: seq<Victim>, a: seq<Victim>, b: seq<Victim>)
    requires Arranged(a) && Arranged(b) && |a| == |b| && forall key: Victim :: Ties(a, key) == Ties(b, key)
    ensures a == b
    decreases |a|
  {
    if a != [] {
      var n := |a| - 1;
      LastAgrees(a, b);
      var x, p, q := a[n], a[..n], b[..n];
      assert a == p + [x] && b == q + [x];
      forall key: Victim ensures Ties(p, key) == Ties(q, key) {
        TiesConcat(p, [x], key);
        TiesConcat(q, [x], key);
        assert Ties(a, key) == Ties(b, key);
        TailsAgree(Ties(p, key), Ties(q, key), Ties([x], key));
      }
      SortsIsUnique(vs, p, q);
    }
  }

  lemma TailsAgree(p: seq<Victim>, q: seq<Victim>, t: seq<Victim>)
    requires p + t == q + t
    ensures p == q
  {
    assert |p| == |q|;
    assert p == (p + t)[..|p|] && q == (q + t)[..|q|];
  }

  lemma {:induction false} TiesMember(vs: seq<Victim>, v: Victim)
    ensures v in Ties(vs, v) <==> v in vs
    ensures vs != [] && SameKey(vs[|vs| - 1], v) ==> Ties(vs, v) != [] && Ties(vs, v)[|Ties(vs, v)| - 1] == vs[|vs| - 1]
  {
    if vs != [] {
      var n := |vs| - 1;
      TiesMember(vs[..n], v);
      assert vs == vs[..n] + [vs[n]];
    }
  }

  /** The last of two arrangements is the last of its tie group in both. */
  lemma LastAgrees(a: seq<Victim>, b: seq<Victim>)
    requires Arranged(a) && Arranged(b) && |a| == |b| && a != [] && forall key: Victim :: Ties(a, key) == Ties(b, key)
    ensures a[|a| - 1] == b[|b| - 1]
  {
    var n := |a| - 1;
    var x, y := a[n], b[n];
    assert Ties(a, x) == Ties(b, x) && Ties(a, y) == Ties(b, y);
    TiesMember(a, x);
    TiesMember(b, x);
    TiesMember(a, y);
    TiesMember(b, y);
    LastIsLatest(a, y);
    LastIsLatest(b, x);
    SoonerTotal(x, y);
  }

  lemma LastIsLatest(a: seq<Victim>, v: Victim)
    requires Arranged(a) && a != [] && v in a
    ensures Sooner(v, a[|a| - 1])
  {
    var i :| 0 <= i < |a| && a[i] == v;
    SoonerTotal(v, v);
  }

  // ---- what the victims hold together ----

  function Together(vs: seq<Victim>): Vec {
    if vs == [] then ZERO else Together(vs[..|vs| - 1]).Plus(vs[|vs| - 1].resources)
  }

  lemma {:induction false} TogetherConcat(a: seq<Victim>, b: seq<Victim>)
    ensures Together(a + b) == Together(a).Plus(Together(b))
    decreases |b|
  {
    if b == [] {
      assert a + b == a;
    } else {
      var n, ab := |b| - 1, a + b;
      TogetherConcat(a, b[..n]);
      assert ab[..|ab| - 1] == a + b[..n] && ab[|ab| - 1] == b[n];
    }
  }

  lemma {:induction false} TogetherPermuted(a: seq<Victim>, b: seq<Victim>)
    requires multiset(a) == multiset(b)
    ensures Together(a) == Together(b)
    decreases |a|
  {
    if a == [] {
      assert |multiset(b)| == |b|;
    } else {
      var n := |a| - 1;
      var x := a[n];
      assert x in multiset(a) && x in b;
      var j :| 0 <= j < |b| && b[j] == x;
      var front, back := b[..j], b[j + 1..];
      assert b == front + [x] + back;
      WithoutOne(a, b, j);
      TogetherPermuted(a[..n], front + back);
      TogetherMiddle(front, x, back);
    }
  }

  lemma WithoutOne(a: seq<Victim>, b: seq<Victim>, j: nat)
    requires a != [] && j < |b| && b[j] == a[|a| - 1] && multiset(a) == multiset(b)
    ensures multiset(a[..|a| - 1]) == multiset(b[..j] + b[j + 1..])
  {
    var n := |a| - 1;
    assert a == a[..n] + [a[n]];
    assert b == b[..j] + [b[j]] + b[j + 1..];
    var p, q, x := multiset(a[..n]), multiset(b[..j] + b[j + 1..]), multiset{a[n]};
    assert p + x == q + x;
    assert p == (p + x) - x && q == (q + x) - x;
  }

  lemma TogetherMiddle(front: seq<Victim>, x: Victim, back: seq<Victim>)
    ensures Together(front + [x] + back) == Together(front + back).Plus(x.resources)
  {
    var withX := front + [x];
    assert withX[..|withX| - 1] == front;
    TogetherConcat(withX, back);
    TogetherConcat(front, back);
    PlusCommutes(Together(front), x.resources, Together(back));
  }

  lemma PlusCommutes(a: Vec, b: Vec, c: Vec)
    ensures a.Plus(b).Plus(c) == a.Plus(c).Plus(b)
  {}

  /** Saturating one victim at a time is saturating the sum. */
  lemma {:induction false} FreedIsSum(free: Resources, vs: seq<Victim>, k: nat)
    requires k <= |vs|
    ensures Freed(free, vs, k) == Clamp(free.Plus(Together(vs[..k])))
    decreases k
  {
    if k > 0 {
      FreedIsSum(free, vs, k - 1);
      assert vs[..k][..k - 1] == vs[..k - 1];
    }
  }

  /** Evicting every eligible job on the slot would make room that is not there now. */
  predicate Possible(jobs: Jobs, head: Job, maxPreemptions: nat, running: seq<RunningJob>, slots: seq<WorkerSlot>,
                     slot: SlotIndex) {
    && slot < |slots| && head.request.FitsWithin(slots[slot].capacity) && !head.request.FitsWithin(slots[slot].Free())
    && head.request.FitsWithin(Clamp(slots[slot].Free().Plus(Together(VictimsOn(jobs, head, maxPreemptions, running,
        slot)))))
  }

  /** A slot has an offer exactly when evicting everything eligible there would help. */
  lemma OfferMeansPossible(jobs: Jobs, head: Job, maxPreemptions: nat, running: seq<RunningJob>, slots: seq<WorkerSlot>,
                           slot: SlotIndex, now: u64, o: Offer)
    requires Offers(jobs, head, maxPreemptions, running, slots, slot, now, o)
    ensures Possible(jobs, head, maxPreemptions, running, slots, slot)
  {
    var free, n := slots[slot].Free(), |o.vs|;
    assert Freed(free, o.vs, 0) == free;
    FreedMonotone(free, o.vs, o.count, n);
    FreedIsSum(free, o.vs, n);
    assert o.vs[..n] == o.vs;
    TogetherPermuted(VictimsOn(jobs, head, maxPreemptions, running, slot), o.vs);
  }

  /** The victims of a slot hold no more than is allocated there. */
  lemma {:induction false} VictimsWithin(jobs: Jobs, head: Job, maxPreemptions: nat, running: seq<RunningJob>,
      slot: SlotIndex)
    ensures Together(VictimsOn(jobs, head, maxPreemptions, running, slot)).FitsWithin(UsedBy(running, slot))
  {
    if running != [] {
      var n := |running| - 1;
      var front, r := running[..n], running[n];
      VictimsWithin(jobs, head, maxPreemptions, front, slot);
      if r.slot == slot && Eligible(jobs, head, maxPreemptions, r.job) {
        TogetherConcat(VictimsOn(jobs, head, maxPreemptions, front, slot), [VictimOf(r, Arenas.Value(jobs, r.job))]);
        TogetherOne(VictimOf(r, Arenas.Value(jobs, r.job)));
      }
    }
  }

  lemma TogetherOne(v: Victim)
    ensures Together([v]) == ZERO.Plus(v.resources)
  {
    assert [v][..0] == [];
  }

  /** Once the chosen victims are gone the head fits its slot, and `left` is what stays allocated there. */
  lemma EvictingMakesRoom(jobs: Jobs, head: Job, maxPreemptions: nat, running: seq<RunningJob>, slots: seq<WorkerSlot>,
                          slot: SlotIndex, now: u64, o: Offer, left: Vec)
    requires Offers(jobs, head, maxPreemptions, running, slots, slot, now, o)
    requires Sound(slots) && head.request != ZERO && slots[slot].used == UsedBy(running, slot)
    requires left == slots[slot].used.Minus(Together(o.vs[..o.count]))
    ensures left.Plus(Together(o.vs[..o.count])) == slots[slot].used
      && left.Plus(head.request).FitsWithin(slots[slot].capacity)
  {
    var chosen, rest := o.vs[..o.count], o.vs[o.count..];
    VictimsWithin(jobs, head, maxPreemptions, running, slot);
    TogetherPermuted(VictimsOn(jobs, head, maxPreemptions, running, slot), o.vs);
    assert chosen + rest == o.vs;
    TogetherConcat(chosen, rest);
    FreedIsSum(slots[slot].Free(), o.vs, o.count);
    RoomLeft(slots[slot], head.request, Together(chosen), left);
  }

  lemma RoomLeft(w: WorkerSlot, request: Resources, chosen: Vec, left: Vec)
    requires (w.used.FitsWithin(w.capacity) || w.capacity == ZERO) && request != ZERO && request.FitsWithin(w.capacity)
    requires chosen.FitsWithin(w.used) && request.FitsWithin(Clamp(w.Free().Plus(chosen)))
      && left == w.used.Minus(chosen)
    ensures left.Plus(chosen) == w.used && left.Plus(request).FitsWithin(w.capacity)
  {}

  /** One slot makes at most one offer. */
  lemma OfferIsUnique(jobs: Jobs, head: Job, maxPreemptions: nat, running: seq<RunningJob>, slots: seq<WorkerSlot>,
                      slot: SlotIndex, now: u64, a: Offer, b: Offer)
    requires Offers(jobs, head, maxPreemptions, running, slots, slot, now, a)
    requires Offers(jobs, head, maxPreemptions, running, slots, slot, now, b)
    ensures a == b
  {
    SortsIsUnique(VictimsOn(jobs, head, maxPreemptions, running, slot), a.vs, b.vs) by {
      forall key: Victim ensures Ties(a.vs, key) == Ties(b.vs, key) {}
    }
  }

  method CollectVictims(jobs: Jobs, head: Job, maxPreemptions: nat, running: seq<RunningJob>,
                        slot: SlotIndex) returns (vs: seq<Victim>)
    ensures vs == VictimsOn(jobs, head, maxPreemptions, running, slot)
  {
    vs := [];
    for i := 0 to |running|
      invariant vs == VictimsOn(jobs, head, maxPreemptions, running[..i], slot)
    {
      var r := running[i];
      assert running[..i + 1][..i] == running[..i];
      if r.slot == slot && Eligible(jobs, head, maxPreemptions, r.job) {
        vs := vs + [VictimOf(r, Arenas.Value(jobs, r.job))];
      }
    }
    assert running[..|running|] == running;
  }

  method OfferOn(jobs: Jobs, head: Job, maxPreemptions: nat, running: seq<RunningJob>, slots: seq<WorkerSlot>,
                 slot: SlotIndex, now: u64) returns (o: Option<Offer>)
    requires slot < |slots|
    ensures o.Some? ==> Offers(jobs, head, maxPreemptions, running, slots, slot, now, o.value)
    ensures o == None ==> !Possible(jobs, head, maxPreemptions, running, slots, slot)
  {
    if !head.request.FitsWithin(slots[slot].capacity) { return None; }
    var found := CollectVictims(jobs, head, maxPreemptions, running, slot);
    var vs := Sort(found);
    var free := slots[slot].Free();
    var count, lost, room := Count(head.request, free, vs, now);
    if count == 0 || !room {
      FreedIsSum(free, vs, |vs|);
      assert vs[..|vs|] == vs;
      TogetherPermuted(found, vs);
      return None;
    }
    return Some(Offer(vs, count, lost));
  }

  lemma BestGrows(jobs: Jobs, head: Job, maxPreemptions: nat, running: seq<RunningJob>, slots: seq<WorkerSlot>, n: nat,
                  now: u64,
                  best: Option<(SlotIndex, Offer)>, o: Option<Offer>)
    requires BestBelow(jobs, head, maxPreemptions, running, slots, n, now, best) && n < |slots|
    requires o.Some? ==> Offers(jobs, head, maxPreemptions, running, slots, n, now, o.value)
    requires o == None ==> !Possible(jobs, head, maxPreemptions, running, slots, n)
    ensures BestBelow(jobs, head, maxPreemptions, running, slots, n + 1, now,
                      if o.Some? && (best == None || Cheaper(o.value, best.value.1)) then Some((n, o.value)) else best)
  {
    forall x | Offers(jobs, head, maxPreemptions, running, slots, n, now, x) ensures o == Some(x) {
      OfferMeansPossible(jobs, head, maxPreemptions, running, slots, n, now, x);
      if o.Some? { OfferIsUnique(jobs, head, maxPreemptions, running, slots, n, now, o.value, x); }
    }
  }

  predicate InFlight(jobs: Jobs, running: seq<RunningJob>) {
    exists i :: 0 <= i < |running| && In(jobs, running[i].job, JobState.Preempted)
  }

  function EvictionsOf(slot: SlotIndex, vs: seq<Victim>): (r: seq<Eviction>)
    ensures |r| == |vs| && forall i :: 0 <= i < |r| ==> r[i] == Eviction(vs[i].job, slot)
  {
    seq(|vs|, i requires 0 <= i < |vs| => Eviction(vs[i].job, slot))
  }

  /** Preemption is on for this head, and no eviction is in flight. */
  predicate MayPlan(jobs: Jobs, head: Job, running: seq<RunningJob>, config: Config) {
    && config.minClass.Some? && head.priorityClass.Ordinal() >= config.minClass.value.Ordinal()
    && !InFlight(jobs, running)
  }

  /** Chooses victims for `head`: the cheapest offer of any slot, or nothing. */
  method PlanPreemption(jobs: Jobs, head: Job, running: seq<RunningJob>, slots: seq<WorkerSlot>, now: u64,
                        config: Config)
    returns (out: seq<Eviction>, best: Option<(SlotIndex, Offer)>)
    ensures !MayPlan(jobs, head, running, config) ==> out == [] && best == None
    ensures MayPlan(jobs, head, running, config) ==>
              && BestBelow(jobs, head, config.maxPreemptions, running, slots, |slots|, now, best)
              && (best == None <==> forall s: nat :: !Possible(jobs, head, config.maxPreemptions, running, slots, s))
    ensures out == if best.Some? then EvictionsOf(best.value.0, best.value.1.vs[..best.value.1.count]) else []
  {
    out, best := [], None;
    if !MayPlan(jobs, head, running, config) { return; }
    for slot := 0 to |slots|
      invariant BestBelow(jobs, head, config.maxPreemptions, running, slots, slot, now, best)
      invariant best == None ==> forall s: nat :: s < slot ==>
                !Possible(jobs, head, config.maxPreemptions, running, slots, s)
    {
      var o := OfferOn(jobs, head, config.maxPreemptions, running, slots, slot, now);
      BestGrows(jobs, head, config.maxPreemptions, running, slots, slot, now, best, o);
      if o.Some? && (best == None || Cheaper(o.value, best.value.1)) { best := Some((slot, o.value)); }
    }
    if best.Some? {
      OfferMeansPossible(jobs, head, config.maxPreemptions, running, slots, best.value.0, now, best.value.1);
      out := EvictionsOf(best.value.0, best.value.1.vs[..best.value.1.count]);
    }
  }
}
