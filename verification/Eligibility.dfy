/** The reverse dependency index: who waits on whom, and how many answers each job still needs. */
module Eligibility {
  import opened Domain
  import Arenas

  type Jobs = Arenas.View<Job>

  /** Marks an index nobody owns. */
  const NO_OWNER: JobId := JobId(0xFFFF_FFFF, 0xFFFF_FFFF)

  datatype Readiness = CanRun | MustWait | Doomed

  datatype Classified = Verdict(readiness: Readiness) | Unresolved(job: JobId, dependency: JobId)

  /** The tracker's side tables as a value, keyed by `JobId.index`. */
  datatype Tables = Tables(owner: seq<JobId>, unsatisfied: seq<nat>, dependents: seq<seq<JobId>>)

  predicate Tracked(t: Tables, id: JobId) {
    id.index < |t.owner| && t.owner[id.index] == id
  }

  /** Parallel tables; an unowned index is blank; every edge leads to an index the tables cover. */
  predicate Shape(t: Tables) {
    && |t.owner| == |t.unsatisfied| == |t.dependents| <= U32_MAX
    && (forall i, x :: 0 <= i < |t.dependents| && x in t.dependents[i] ==> x.index < |t.owner|)
    && forall i :: 0 <= i < |t.owner| ==>
         if t.owner[i] == NO_OWNER then t.unsatisfied[i] == 0 && t.dependents[i] == [] else t.owner[i].index == i
  }

  // ---- what the tables mean ----

  /** How many entries of `deps` are still being waited for. */
  function CountTracked(t: Tables, deps: seq<JobId>): nat {
    if deps == [] then 0
    else CountTracked(t, deps[..|deps| - 1]) + if Tracked(t, deps[|deps| - 1]) then 1 else 0
  }

  /** `graph` gives each tracked job's dependency list. Every counter is the number of its entries
      still tracked, and every reverse edge is there as often as the forward one is listed. */
  ghost predicate Consistent(t: Tables, graph: map<JobId, seq<JobId>>) {
    && Shape(t)
    && (forall j :: Tracked(t, j) ==>
        j in graph && j !in graph[j] && t.unsatisfied[j.index] == CountTracked(t, graph[j]))
    && (forall d, j :: Tracked(t, d) && Tracked(t, j) && j in graph ==>
          multiset(t.dependents[d.index])[j] == multiset(graph[j])[d])
  }

  lemma {:induction false} CountTrackedLess(t: Tables, t': Tables, deps: seq<JobId>, gone: JobId)
    requires Tracked(t, gone)
    requires forall x :: x in deps ==> (Tracked(t', x) <==> Tracked(t, x) && x != gone)
    ensures CountTracked(t', deps) + multiset(deps)[gone] == CountTracked(t, deps)
  {
    if deps != [] {
      var n := |deps| - 1;
      assert deps == deps[..n] + [deps[n]];
      CountTrackedLess(t, t', deps[..n], gone);
    }
  }

  lemma {:induction false} CountTrackedSame(t: Tables, t': Tables, deps: seq<JobId>)
    requires forall x :: x in deps ==> (Tracked(t', x) <==> Tracked(t, x))
    ensures CountTracked(t', deps) == CountTracked(t, deps)
  {
    if deps != [] { CountTrackedSame(t, t', deps[..|deps| - 1]); }
  }

  lemma {:induction false} CountTrackedZero(t: Tables, deps: seq<JobId>)
    ensures CountTracked(t, deps) == 0 <==> forall x :: x in deps ==> !Tracked(t, x)
  {
    if deps != [] {
      var n := |deps| - 1;
      CountTrackedZero(t, deps[..n]);
      assert deps == deps[..n] + [deps[n]];
    }
  }

  // ---- completion ----

  ghost predicate NoDuplicates(s: seq<JobId>) {
    forall i, j :: 0 <= i < j < |s| ==> s[i] != s[j]
  }

  /** `t'` is `t` after `id` completed: its dependents' counters drop by the multiplicity of its edges. */
  ghost predicate Completes(t: Tables, t': Tables, id: JobId, promoted: seq<JobId>)
    requires Shape(t)
  {
    && Shape(t')
    && NoDuplicates(promoted)
    && if !Tracked(t, id) then t' == t && promoted == []
       else
         && (forall j :: Tracked(t', j) <==> Tracked(t, j) && j != id)
         && (forall j :: Tracked(t', j) ==>
               && t'.unsatisfied[j.index] == Monus(t.unsatisfied[j.index], multiset(t.dependents[id.index])[j])
               && t'.dependents[j.index] == t.dependents[j.index])
         && (forall j :: j in promoted <==>
             Tracked(t, j) && 0 < t.unsatisfied[j.index] <= multiset(t.dependents[id.index])[j])
  }

  /** Completion keeps every remaining counter exact and promotes exactly the jobs that waited for nothing else. */
  lemma CompletionKeepsCounters(t: Tables, t': Tables, id: JobId, promoted: seq<JobId>, graph: map<JobId, seq<JobId>>)
    requires Consistent(t, graph) && Completes(t, t', id, promoted)
    ensures Consistent(t', graph)
    ensures Tracked(t, id) ==> forall j :: j in promoted <==>
              Tracked(t', j) && id in graph[j] && forall x :: x in graph[j] ==> x == id || !Tracked(t, x)
  {
    if Tracked(t, id) {
      forall j | Tracked(t', j)
        ensures t'.unsatisfied[j.index] == CountTracked(t', graph[j])
        ensures j in promoted <==> id in graph[j] && forall x :: x in graph[j] ==> x == id || !Tracked(t, x)
      {
        CountTrackedLess(t, t', graph[j], id);
        CountTrackedZero(t', graph[j]);
      }
      assert id !in graph[id];
      assert multiset(t.dependents[id.index])[id] == 0;
    }
  }

  // ---- cascade ----

  /** Each step of the path follows a reverse edge between tracked jobs. */
  ghost predicate Path(t: Tables, p: seq<JobId>)
    requires Shape(t)
  {
    && |p| >= 1
    && (forall k :: 0 <= k < |p| ==> Tracked(t, p[k]))
    && (forall k :: 0 <= k < |p| - 1 ==> p[k + 1] in t.dependents[p[k].index])
  }

  ghost predicate Reaches(t: Tables, a: JobId, b: JobId)
    requires Shape(t)
  {
    exists p :: Path(t, p) && p[0] == a && p[|p| - 1] == b
  }

  lemma ReachesStep(t: Tables, a: JobId, b: JobId, c: JobId)
    requires Shape(t) && Reaches(t, a, b) && Tracked(t, c) && Tracked(t, b) && c in t.dependents[b.index]
    ensures Reaches(t, a, c)
  {
    var p :| Path(t, p) && p[0] == a && p[|p| - 1] == b;
    var q := p + [c];
    assert Path(t, q) && q[0] == a && q[|q| - 1] == c;
  }

  /** A set that holds `a` and is closed under reverse edges holds everything `a` reaches. */
  lemma {:induction false} ClosedHoldsPath(t: Tables, s: set<JobId>, p: seq<JobId>)
    requires Shape(t) && Path(t, p) && p[0] in s
    requires forall v, x :: v in s && Tracked(t, v) && x in t.dependents[v.index] && Tracked(t, x) ==> x in s
    ensures p[|p| - 1] in s
    decreases |p|
  {
    if |p| > 1 {
      var q := p[..|p| - 1];
      assert Path(t, q);
      ClosedHoldsPath(t, s, q);
      assert p[|p| - 1] in t.dependents[p[|p| - 2].index];
    }
  }

  /** `t'` is `t` after `id` terminated: `id` and all it reaches are untracked, nobody else is touched. */
  ghost predicate Terminates(t: Tables, t': Tables, id: JobId, cascade: seq<JobId>)
    requires Shape(t)
  {
    && Shape(t')
    && NoDuplicates(cascade)
    && (forall j :: j in cascade <==> j != id && Reaches(t, id, j))
    && (forall j :: Tracked(t', j) <==> Tracked(t, j) && !Reaches(t, id, j))
    && (forall j :: Tracked(t', j) ==>
          t'.unsatisfied[j.index] == t.unsatisfied[j.index] && t'.dependents[j.index] == t.dependents[j.index])
  }

  /** A cascade leaves every other counter exact, despite stale and duplicate edges. */
  lemma CascadeKeepsCounters(t: Tables, t': Tables, id: JobId, cascade: seq<JobId>, graph: map<JobId, seq<JobId>>)
    requires Consistent(t, graph) && Terminates(t, t', id, cascade)
    ensures Consistent(t', graph)
  {
    forall j | Tracked(t', j) ensures t'.unsatisfied[j.index] == CountTracked(t', graph[j]) {
      forall x | x in graph[j] ensures Tracked(t', x) <==> Tracked(t, x) {
        if Tracked(t, x) && Reaches(t, id, x) {
          assert multiset(t.dependents[x.index])[j] == multiset(graph[j])[x];
          ReachesStep(t, id, x, j);
        }
      }
      CountTrackedSame(t, t', graph[j]);
    }
  }

  /** `now` is `t` with exactly the jobs in `visited` retired. */
  ghost predicate Retired(t: Tables, now: Tables, visited: set<JobId>) {
    && |now.owner| == |now.unsatisfied| == |now.dependents| == |t.owner| == |t.unsatisfied| == |t.dependents|
    && (forall i :: 0 <= i < |t.owner| ==>
          && now.owner[i] == (if t.owner[i] in visited then NO_OWNER else t.owner[i])
          && now.unsatisfied[i] == (if t.owner[i] in visited then 0 else t.unsatisfied[i])
          && now.dependents[i] == if t.owner[i] in visited then [] else t.dependents[i])
  }

  /** Everything visited or waiting is reachable, and nothing reachable has been lost. */
  ghost predicate Frontier(t: Tables, id: JobId, visited: set<JobId>, stack: seq<JobId>)
    requires Shape(t)
  {
    && (forall v :: v in visited ==> Tracked(t, v) && Reaches(t, id, v))
    && (forall x :: x in stack && Tracked(t, x) ==> Reaches(t, id, x))
    && (forall v, x :: v in visited && x in t.dependents[v.index] && Tracked(t, x) ==> x in visited || x in stack)
    && (id in visited || id in stack)
  }

  ghost predicate Lists(cascade: seq<JobId>, visited: set<JobId>, id: JobId) {
    NoDuplicates(cascade) && forall j :: j in cascade <==> j in visited && j != id
  }

  lemma ListsVisit(cascade: seq<JobId>, visited: set<JobId>, id: JobId, top: JobId)
    requires Lists(cascade, visited, id) && top !in visited
    ensures Lists(if top == id then cascade else cascade + [top], visited + {top}, id)
  {}

  lemma SplitLast(s: seq<JobId>)
    requires s != []
    ensures s == s[..|s| - 1] + [s[|s| - 1]]
  {}

  lemma FrontierStart(t: Tables, id: JobId)
    requires Shape(t)
    ensures Frontier(t, id, {}, [id])
  {
    if Tracked(t, id) { assert Path(t, [id]); }
  }

  /** A popped entry that is stale or already retired changes nothing. */
  lemma FrontierSkip(t: Tables, id: JobId, visited: set<JobId>, rest: seq<JobId>, top: JobId)
    requires Shape(t) && Tracked(t, id) && Frontier(t, id, visited, rest + [top])
    requires Tracked(t, top) ==> top in visited
    ensures Frontier(t, id, visited, rest)
  {
    assert forall x :: x in rest + [top] <==> x in rest || x == top;
  }

  lemma FrontierVisit(t: Tables, id: JobId, visited: set<JobId>, rest: seq<JobId>, top: JobId)
    requires Shape(t) && Tracked(t, top) && Frontier(t, id, visited, rest + [top])
    ensures Frontier(t, id, visited + {top}, rest + t.dependents[top.index])
  {
    assert top in rest + [top];
    var edges := t.dependents[top.index];
    assert forall x :: x in rest + [top] <==> x in rest || x == top;
    assert forall x :: x in rest + edges <==> x in rest || x in edges;
    forall x | x in edges && Tracked(t, x) ensures Reaches(t, id, x) { ReachesStep(t, id, top, x); }
  }

  lemma RetireOne(t: Tables, now: Tables, visited: set<JobId>, top: JobId)
    requires Shape(t) && Retired(t, now, visited) && Tracked(now, top)
    ensures Tracked(t, top) && top !in visited && now.dependents[top.index] == t.dependents[top.index]
    ensures Retired(t, Cleared(now, now.unsatisfied, top.index), visited + {top})
  {
    assert top != NO_OWNER;
    forall i | 0 <= i < |t.owner| && t.owner[i] == top ensures i == top.index {}
  }

  lemma CascadeDone(t: Tables, now: Tables, id: JobId, visited: set<JobId>, cascade: seq<JobId>)
    requires Shape(t) && Tracked(t, id) && Retired(t, now, visited) && Frontier(t, id, visited, [])
      && Lists(cascade, visited, id)
    ensures Terminates(t, now, id, cascade)
  {
    forall j | Reaches(t, id, j) ensures j in visited {
      var p :| Path(t, p) && p[0] == id && p[|p| - 1] == j;
      ClosedHoldsPath(t, visited, p);
    }
    assert Shape(now);
  }

  lemma CascadeOfUntracked(t: Tables, id: JobId)
    requires Shape(t) && !Tracked(t, id)
    ensures Terminates(t, t, id, [])
  {
    assert forall j :: !Reaches(t, id, j);
  }

  ghost function Owners(t: Tables): set<JobId> { set i | 0 <= i < |t.owner| :: t.owner[i] }

  // ---- registration ----

  /** A dependency entry that cannot be waited for: the job itself, or no live job. */
  predicate BadEntry(jobs: Jobs, id: JobId, dep: JobId) {
    dep == id || !Arenas.Live(jobs, dep)
  }

  /** A dependency entry that already failed. */
  predicate DeadEntry(jobs: Jobs, dep: JobId) {
    Arenas.Live(jobs, dep) && (Arenas.Value(jobs, dep).state.Failed? || Arenas.Value(jobs, dep).state.Cancelled?)
  }

  /** A dependency entry whose answer is still open. */
  predicate PendingEntry(jobs: Jobs, dep: JobId) {
    Arenas.Live(jobs, dep) && !Arenas.Value(jobs, dep).state.IsTerminal()
  }

  predicate Stops(jobs: Jobs, id: JobId, dep: JobId) { BadEntry(jobs, id, dep) || DeadEntry(jobs, dep) }

  /** Entry `k` is the first that is bad or dead. */
  predicate FirstStop(jobs: Jobs, id: JobId, deps: seq<JobId>, k: int) {
    0 <= k < |deps| && Stops(jobs, id, deps[k]) && forall i :: 0 <= i < k ==> !Stops(jobs, id, deps[i])
  }

  /** The first bad or dead entry decides; otherwise the job waits iff some entry is pending. */
  ghost predicate ClassifiesAs(jobs: Jobs, id: JobId, deps: seq<JobId>, c: Classified) {
    match c
    case Unresolved(job, dep) =>
      job == id && exists k :: FirstStop(jobs, id, deps, k) && deps[k] == dep && BadEntry(jobs, id, dep)
    case Verdict(Doomed) => exists k :: FirstStop(jobs, id, deps, k) && !BadEntry(jobs, id, deps[k])
    case Verdict(MustWait) =>
      (forall d :: d in deps ==> !Stops(jobs, id, d)) && exists d :: d in deps && PendingEntry(jobs, d)
    case Verdict(CanRun) => forall d :: d in deps ==> !Stops(jobs, id, d) && !PendingEntry(jobs, d)
  }

  function CountPending(jobs: Jobs, deps: seq<JobId>): nat {
    if deps == [] then 0
    else CountPending(jobs, deps[..|deps| - 1]) + if PendingEntry(jobs, deps[|deps| - 1]) then 1 else 0
  }

  function Reserve(t: Tables, n: nat): (r: Tables)
    requires |t.owner| == |t.unsatisfied| == |t.dependents|
    ensures |r.owner| == |r.unsatisfied| == |r.dependents| == if n <= |t.owner| then |t.owner| else n
    ensures forall i :: 0 <= i < |t.owner| ==>
              r.owner[i] == t.owner[i] && r.unsatisfied[i] == t.unsatisfied[i] && r.dependents[i] == t.dependents[i]
    ensures forall i :: |t.owner| <= i < |r.owner| ==>
              r.owner[i] == NO_OWNER && r.unsatisfied[i] == 0 && r.dependents[i] == []
  {
    var extra := if n <= |t.owner| then 0 else n - |t.owner|;
    Tables(t.owner + seq(extra, _ => NO_OWNER), t.unsatisfied + seq(extra, _ => 0), t.dependents + seq(extra, _ => []))
  }

  /** Index `id.index` blanked and handed to `id`. */
  function Own(t: Tables, id: JobId): (r: Tables)
    requires |t.owner| == |t.unsatisfied| == |t.dependents|
  {
    var t := Reserve(t, id.index + 1);
    Tables(t.owner[id.index := id], t.unsatisfied[id.index := 0], t.dependents[id.index := []])
  }

  /** One reverse edge; a dependency nobody registered is adopted so that its completion still fires. */
  function AddEdge(t: Tables, dep: JobId, id: JobId): (r: Tables)
    requires |t.owner| == |t.unsatisfied| == |t.dependents|
    ensures |r.owner| == |r.unsatisfied| == |r.dependents| && |r.owner| >= |t.owner|
  {
    var t := if Tracked(t, dep) then t else Own(t, dep);
    t.(dependents := t.dependents[dep.index := t.dependents[dep.index] + [id]])
  }

  function AddEdges(t: Tables, jobs: Jobs, deps: seq<JobId>, id: JobId): (r: Tables)
    requires |t.owner| == |t.unsatisfied| == |t.dependents|
    ensures |r.owner| == |r.unsatisfied| == |r.dependents| && |r.owner| >= |t.owner|
  {
    if deps == [] then t
    else
      var r := AddEdges(t, jobs, deps[..|deps| - 1], id);
      if PendingEntry(jobs, deps[|deps| - 1]) then AddEdge(r, deps[|deps| - 1], id) else r
  }

  /** The commit pass of `register`. */
  function Registered(t: Tables, jobs: Jobs, id: JobId, deps: seq<JobId>): (r: Tables)
    requires |t.owner| == |t.unsatisfied| == |t.dependents|
  {
    var r := AddEdges(Own(t, id), jobs, deps, id);
    r.(unsatisfied := r.unsatisfied[id.index := CountPending(jobs, deps)])
  }

  function Copies(id: JobId, k: nat): (r: seq<JobId>)
    ensures |r| == k && forall x :: x in r ==> x == id
  {
    if k == 0 then [] else Copies(id, k - 1) + [id]
  }

  lemma {:induction false} CountWithCopies(s: seq<JobId>, id: JobId, k: nat, x: JobId)
    ensures multiset(s + Copies(id, k))[x] == multiset(s)[x] + if x == id then k else 0
  {
    if k == 0 {
      assert s + Copies(id, k) == s;
    } else {
      CountWithCopies(s, id, k - 1, x);
      assert s + Copies(id, k) == s + Copies(id, k - 1) + [id];
    }
  }

  /** How many entries of `deps` name the owner of index `i`. */
  function Mentions(t: Tables, deps: seq<JobId>, i: nat): nat
    requires i < |t.owner|
  {
    if t.owner[i] == NO_OWNER then 0 else multiset(deps)[t.owner[i]]
  }

  /** `r` is `t` with each owner's list lengthened by one `id` per mention. */
  ghost predicate Lengthened(t: Tables, r: Tables, deps: seq<JobId>, id: JobId) {
    && r.owner == t.owner && r.unsatisfied == t.unsatisfied && |t.owner| == |t.dependents| == |r.dependents|
    && forall i :: 0 <= i < |t.owner| ==> r.dependents[i] == t.dependents[i] + Copies(id, Mentions(t, deps, i))
  }

  lemma LengthenOne(t: Tables, r: Tables, deps: seq<JobId>, d: JobId, id: JobId)
    requires Shape(t) && Lengthened(t, r, deps, id)
    ensures !Tracked(t, d) ==> Lengthened(t, r, deps + [d], id)
    ensures Tracked(t, d) ==> Lengthened(t, r.(dependents := r.dependents[d.index := r.dependents[d.index] + [id]]),
              deps + [d], id)
  {
    var all := deps + [d];
    forall i | 0 <= i < |t.owner| ensures Mentions(t, all, i) == Mentions(t, deps, i) + if t.owner[i] == d
        && d != NO_OWNER then 1 else 0 {}
    if Tracked(t, d) {
      var k := Mentions(t, deps, d.index);
      assert t.dependents[d.index] + Copies(id, k) + [id] == t.dependents[d.index] + Copies(id, k + 1);
    }
  }

  /** When every pending dependency is tracked, adding edges only lengthens their lists. */
  lemma {:induction false} AddEdgesLengthen(t: Tables, jobs: Jobs, deps: seq<JobId>, id: JobId)
    requires Shape(t)
    requires forall d :: d in deps ==> (PendingEntry(jobs, d) <==> Tracked(t, d))
    ensures Lengthened(t, AddEdges(t, jobs, deps, id), deps, id)
  {
    if deps == [] {
      forall i | 0 <= i < |t.owner| ensures t.dependents[i] == t.dependents[i] + Copies(id, Mentions(t, deps, i)) {}
    } else {
      var n := |deps| - 1;
      AddEdgesLengthen(t, jobs, deps[..n], id);
      SplitLast(deps);
      LengthenOne(t, AddEdges(t, jobs, deps[..n], id), deps[..n], deps[n], id);
    }
  }

  lemma {:induction false} CountPendingIsTracked(t: Tables, jobs: Jobs, deps: seq<JobId>)
    requires forall d :: d in deps ==> (PendingEntry(jobs, d) <==> Tracked(t, d))
    ensures CountPending(jobs, deps) == CountTracked(t, deps)
  {
    if deps != [] { CountPendingIsTracked(t, jobs, deps[..|deps| - 1]); }
  }

  /** Nobody refers to `id` yet and no live job sits on its index. */
  ghost predicate Unknown(t: Tables, id: JobId, graph: map<JobId, seq<JobId>>) {
    && id.index < U32_MAX
    && (id.index < |t.owner| ==> t.owner[id.index] == NO_OWNER)
    && (forall i :: 0 <= i < |t.dependents| ==> id !in t.dependents[i])
    && (forall j :: Tracked(t, j) && j in graph ==> id !in graph[j])
  }

  /** `o` is `t` with `id` added on a blank index. */
  ghost predicate OwnedBy(t: Tables, o: Tables, id: JobId) {
    && Shape(t) && Shape(o) && |t.owner| <= |o.owner|
    && (forall j :: Tracked(o, j) <==> Tracked(t, j) || j == id)
    && Tracked(o, id) && o.dependents[id.index] == []
    && (forall i :: 0 <= i < |t.owner| && i != id.index ==>
        o.unsatisfied[i] == t.unsatisfied[i] && o.dependents[i] == t.dependents[i])
    && (forall i :: |t.owner| <= i < |o.owner| && i != id.index ==> o.dependents[i] == [])
  }

  lemma OwnKeepsCounters(t: Tables, id: JobId, graph: map<JobId, seq<JobId>>)
    requires Consistent(t, graph) && Unknown(t, id, graph)
    ensures OwnedBy(t, Own(t, id), id)
  {
    var r := Own(t, id);
    forall i, x | 0 <= i < |r.dependents| && x in r.dependents[i] ensures x.index < |r.owner| {
      if i < |t.dependents| && i != id.index { assert x in t.dependents[i]; }
    }
  }

  lemma LengthenedEdges(t: Tables, o: Tables, r: Tables, id: JobId, deps: seq<JobId>, graph: map<JobId, seq<JobId>>,
                        d: JobId, j: JobId)
    requires Consistent(t, graph) && Unknown(t, id, graph) && id !in deps
    requires Shape(o) && Lengthened(o, r, deps, id)
    requires OwnedBy(t, o, id)
    requires Tracked(o, d) && Tracked(o, j)
    ensures j in graph[id := deps] && multiset(r.dependents[d.index])[j] == multiset(graph[id := deps][j])[d]
  {
    var k := Mentions(o, deps, d.index);
    assert d != NO_OWNER && k == multiset(deps)[d];
    CountWithCopies(o.dependents[d.index], id, k, j);
    if j == id {
      if d != id { assert id !in t.dependents[d.index]; }
    } else if d == id {
      assert id !in graph[j];
    }
  }

  /** Every reverse edge of `r` is one of `t` or leads to `id`. */
  ghost predicate EdgesFrom(t: Tables, r: Tables, id: JobId) {
    forall i, x :: 0 <= i < |r.dependents| && x in r.dependents[i] ==>
        x == id || (i < |t.dependents| && x in t.dependents[i])
  }

  lemma LengthenedShape(t: Tables, o: Tables, r: Tables, deps: seq<JobId>, id: JobId)
    requires OwnedBy(t, o, id) && |r.owner| == |r.unsatisfied| == |r.dependents| && r.owner == o.owner
    requires forall i :: 0 <= i < |o.owner| ==> r.dependents[i] == o.dependents[i] + Copies(id, Mentions(o, deps, i))
    requires forall i :: 0 <= i < |o.owner| && i != id.index ==> r.unsatisfied[i] == o.unsatisfied[i]
    ensures Shape(r) && EdgesFrom(t, r, id)
  {
    forall i, x | 0 <= i < |r.dependents| && x in r.dependents[i]
      ensures x == id || (i < |t.dependents| && x in t.dependents[i])
    {
      assert x in o.dependents[i] || x in Copies(id, Mentions(o, deps, i));
    }
  }

  lemma RegistrationCounts(t: Tables, o: Tables, r: Tables, id: JobId, deps: seq<JobId>, graph: map<JobId, seq<JobId>>)
    requires Consistent(t, graph) && Unknown(t, id, graph) && id !in deps
    requires OwnedBy(t, o, id) && Shape(r) && r.owner == o.owner
    requires forall i :: 0 <= i < |o.owner| && i != id.index ==> r.unsatisfied[i] == o.unsatisfied[i]
    requires r.unsatisfied[id.index] == CountTracked(o, deps)
    ensures forall j :: Tracked(r, j) ==>
              j in graph[id := deps] && j !in graph[id := deps][j]
                  && r.unsatisfied[j.index] == CountTracked(r, graph[id := deps][j])
  {
    assert forall x :: Tracked(r, x) <==> Tracked(o, x);
    forall j | Tracked(r, j)
      ensures j in graph[id := deps] && j !in graph[id := deps][j]
        && r.unsatisfied[j.index] == CountTracked(r, graph[id := deps][j])
    {
      if j == id {
        CountTrackedSame(o, r, deps);
      } else {
        assert Tracked(t, j) && id !in graph[j];
        CountTrackedSame(t, r, graph[j]);
      }
    }
  }

  /** Registering a new job whose pending dependencies are all tracked keeps every counter exact. */
  lemma RegistrationKeepsCounters(t: Tables, jobs: Jobs, id: JobId, deps: seq<JobId>, graph: map<JobId, seq<JobId>>)
    requires Consistent(t, graph) && Unknown(t, id, graph) && id !in deps
    requires forall d :: d in deps ==> (PendingEntry(jobs, d) <==> Tracked(t, d))
    ensures var r := Registered(t, jobs, id, deps);
            && Consistent(r, graph[id := deps])
            && (forall j :: Tracked(r, j) <==> Tracked(t, j) || j == id)
            && r.unsatisfied[id.index] == CountPending(jobs, deps)
            && EdgesFrom(t, r, id)
  {
    OwnKeepsCounters(t, id, graph);
    var o, r := Own(t, id), Registered(t, jobs, id, deps);
    var e := AddEdges(o, jobs, deps, id);
    assert forall d :: d in deps ==> (PendingEntry(jobs, d) <==> Tracked(o, d));
    AddEdgesLengthen(o, jobs, deps, id);
    assert r.owner == o.owner && r.dependents == e.dependents;
    assert forall j :: Tracked(r, j) <==> Tracked(o, j);
    LengthenedShape(t, o, r, deps, id);
    CountPendingIsTracked(o, jobs, deps);
    RegistrationCounts(t, o, r, id, deps, graph);
    RegistrationEdges(t, o, e, id, deps, graph);
  }

  lemma RegistrationEdges(t: Tables, o: Tables, e: Tables, id: JobId, deps: seq<JobId>, graph: map<JobId, seq<JobId>>)
    requires Consistent(t, graph) && Unknown(t, id, graph) && id !in deps
    requires Shape(o) && Lengthened(o, e, deps, id) && OwnedBy(t, o, id)
    ensures forall d, j :: Tracked(o, d) && Tracked(o, j) ==>
              j in graph[id := deps] && multiset(e.dependents[d.index])[j] == multiset(graph[id := deps][j])[d]
  {
    forall d, j | Tracked(o, d) && Tracked(o, j)
      ensures j in graph[id := deps] && multiset(e.dependents[d.index])[j] == multiset(graph[id := deps][j])[d]
    {
      LengthenedEdges(t, o, e, id, deps, graph, d, j);
    }
  }

  /** The counters once the edges in `seen` have fired, and who reached zero on the way. */
  ghost predicate Counted(t: Tables, unsatisfied: seq<nat>, promoted: seq<JobId>, seen: seq<JobId>)
    requires Shape(t)
  {
    && |unsatisfied| == |t.unsatisfied|
    && (forall j :: Tracked(t, j) ==> unsatisfied[j.index] == Monus(t.unsatisfied[j.index], multiset(seen)[j]))
    && (forall i :: 0 <= i < |t.owner| && t.owner[i] == NO_OWNER ==> unsatisfied[i] == 0)
    && NoDuplicates(promoted)
    && (forall j :: j in promoted <==> Tracked(t, j) && 0 < t.unsatisfied[j.index] <= multiset(seen)[j])
  }

  lemma CountedStep(t: Tables, unsatisfied: seq<nat>, promoted: seq<JobId>, seen: seq<JobId>, x: JobId)
    requires Shape(t) && Counted(t, unsatisfied, promoted, seen) && x.index < |t.owner|
    ensures var hit := Tracked(t, x) && unsatisfied[x.index] > 0;
            var u := if hit then unsatisfied[x.index := unsatisfied[x.index] - 1] else unsatisfied;
            Counted(t, u, if hit && u[x.index] == 0 then promoted + [x] else promoted, seen + [x])
  {
    var more := seen + [x];
    assert multiset(more) == multiset(seen)[x := multiset(seen)[x] + 1];
    if Tracked(t, x) && unsatisfied[x.index] > 0 {
      var u := unsatisfied[x.index := unsatisfied[x.index] - 1];
      assert x != NO_OWNER && x !in promoted;
      forall j | Tracked(t, j) ensures u[j.index] == Monus(t.unsatisfied[j.index], multiset(more)[j]) {
        assert j.index == x.index ==> j == x;
      }
      forall i | 0 <= i < |t.owner| && t.owner[i] == NO_OWNER ensures u[i] == 0 {}
    }
  }

  function Cleared(t: Tables, unsatisfied: seq<nat>, i: nat): Tables
    requires i < |t.owner| == |unsatisfied| == |t.dependents|
  {
    Tables(t.owner[i := NO_OWNER], unsatisfied[i := 0], t.dependents[i := []])
  }

  lemma CountedCompletes(t: Tables, unsatisfied: seq<nat>, promoted: seq<JobId>, id: JobId)
    requires Shape(t) && Tracked(t, id)
    requires Counted(t, unsatisfied, promoted, t.dependents[id.index])
    ensures Completes(t, Cleared(t, unsatisfied, id.index), id, promoted)
  {
    var t' := Cleared(t, unsatisfied, id.index);
    forall i | 0 <= i < |t'.owner|
      ensures if t'.owner[i] == NO_OWNER then t'.unsatisfied[i] == 0 && t'.dependents[i] == []
                else t'.owner[i].index == i
    {}
    assert Shape(t');
  }

  class DependencyTracker {
    var owner: seq<JobId>
    var unsatisfied: seq<nat>
    var dependents: seq<seq<JobId>>

    function Contents(): Tables reads this { Tables(owner, unsatisfied, dependents) }

    constructor Empty()
      ensures Contents() == Tables([], [], [])
    {
      owner, unsatisfied, dependents := [], [], [];
    }

    /** Validates and classifies without touching anything. */
    method Classify(id: JobId, deps: seq<JobId>, jobs: Jobs) returns (c: Classified)
      ensures ClassifiesAs(jobs, id, deps, c)
    {
      var pending := 0;
      for i := 0 to |deps|
        invariant forall k :: 0 <= k < i ==> !Stops(jobs, id, deps[k])
        invariant pending > 0 <==> exists k :: 0 <= k < i && PendingEntry(jobs, deps[k])
      {
        assert Stops(jobs, id, deps[i]) ==> FirstStop(jobs, id, deps, i);
        if deps[i] == id { return Unresolved(id, deps[i]); }
        var target := Arenas.Get(jobs, deps[i]);
        if target == None { return Unresolved(id, deps[i]); }
        match target.value.state {
          case Completed =>
          case Failed => return Verdict(Doomed);
          case Cancelled => return Verdict(Doomed);
          case _ =>
            assert PendingEntry(jobs, deps[i]);
            pending := pending + 1;
        }
      }
      return Verdict(if pending == 0 then CanRun else MustWait);
    }

    method ReserveSlots(slots: nat)
      requires |owner| == |unsatisfied| == |dependents|
      modifies this
      ensures Contents() == Reserve(old(Contents()), slots)
    {
      var extra := if slots <= |owner| then 0 else slots - |owner|;
      owner := owner + seq(extra, _ => NO_OWNER);
      unsatisfied := unsatisfied + seq(extra, _ => 0);
      dependents := dependents + seq(extra, _ => []);
    }

    method ClearIndex(index: nat)
      requires index < |owner| == |unsatisfied| == |dependents|
      modifies this
      ensures owner == old(owner)[index := NO_OWNER]
      ensures unsatisfied == old(unsatisfied)[index := 0]
      ensures dependents == old(dependents)[index := []]
    {
      owner := owner[index := NO_OWNER];
      unsatisfied := unsatisfied[index := 0];
      dependents := dependents[index := []];
    }

    /** Blanks the index of `id` and hands it over. */
    method OwnIndex(id: JobId)
      requires |owner| == |unsatisfied| == |dependents|
      modifies this
      ensures Contents() == Own(old(Contents()), id)
    {
      ReserveSlots(id.index + 1);
      ClearIndex(id.index);
      owner := owner[id.index := id];
    }

    method AddReverseEdge(dep: JobId, id: JobId)
      requires |owner| == |unsatisfied| == |dependents|
      modifies this
      ensures Contents() == AddEdge(old(Contents()), dep, id)
    {
      if !(dep.index < |owner| && owner[dep.index] == dep) {
        OwnIndex(dep);
      }
      dependents := dependents[dep.index := dependents[dep.index] + [id]];
    }

    /** Records the dependencies of `id`. A doomed job leaves nothing behind. */
    method Register(id: JobId, deps: seq<JobId>, jobs: Jobs) returns (c: Classified)
      requires |owner| == |unsatisfied| == |dependents|
      modifies this
      ensures ClassifiesAs(jobs, id, deps, c)
      ensures Contents() == if c == Verdict(CanRun) || c == Verdict(MustWait)
                            then Registered(old(Contents()), jobs, id, deps) else old(Contents())
    {
      c := Classify(id, deps, jobs);
      if c.Unresolved? || c.readiness.Doomed? { return; }
      OwnIndex(id);
      ghost var start := Contents();
      var pending := 0;
      for i := 0 to |deps|
        invariant |owner| == |unsatisfied| == |dependents| > id.index
        invariant Contents() == AddEdges(start, jobs, deps[..i], id)
        invariant pending == CountPending(jobs, deps[..i])
      {
        assert deps[..i + 1][..i] == deps[..i];
        var target := Arenas.Get(jobs, deps[i]);
        if target == None || target.value.state.IsTerminal() { continue; }
        pending := pending + 1;
        AddReverseEdge(deps[i], id);
      }
      assert deps[..|deps|] == deps;
      unsatisfied := unsatisfied[id.index := pending];
    }

    /** `id` completed: whoever now waits for nothing is promoted, and `id` is tracked no more. */
    method OnCompleted(id: JobId) returns (promoted: seq<JobId>)
      requires Shape(Contents())
      requires Tracked(Contents(), id) ==> id !in dependents[id.index]
      modifies this
      ensures Completes(old(Contents()), Contents(), id, promoted)
    {
      promoted := [];
      if !(id.index < |owner| && owner[id.index] == id) { return; }
      ghost var t := Contents();
      var edges := dependents[id.index];
      for k := 0 to |edges|
        invariant owner == t.owner && dependents == t.dependents
        invariant Counted(t, unsatisfied, promoted, edges[..k])
      {
        assert edges[..k + 1] == edges[..k] + [edges[k]];
        assert edges[k] in t.dependents[id.index];
        promoted := FireEdge(t, edges[k], promoted, edges[..k]);
      }
      assert edges[..|edges|] == edges;
      CountedCompletes(t, unsatisfied, promoted, id);
      ClearIndex(id.index);
    }

    /** Retires `id` and everything that waits on it, directly or not. Iterative; no recursion. */
    method OnTerminated(id: JobId) returns (cascade: seq<JobId>)
      requires Shape(Contents())
      modifies this
      ensures Terminates(old(Contents()), Contents(), id, cascade)
    {
      ghost var t := Contents();
      cascade := [];
      if !(id.index < |owner| && owner[id.index] == id) {
        CascadeOfUntracked(t, id);
        return;
      }
      var stack := [id];
      ghost var visited: set<JobId> := {};
      FrontierStart(t, id);
      while stack != []
        invariant Retired(t, Contents(), visited) && Frontier(t, id, visited, stack) && Lists(cascade, visited, id)
        decreases Owners(t) - visited, |stack|
      {
        var current := stack[|stack| - 1];
        var rest := stack[..|stack| - 1];
        SplitLast(stack);
        if !(current.index < |owner| && owner[current.index] == current) {
          FrontierSkip(t, id, visited, rest, current);
          stack := rest;
          continue; // already visited (retired) or stale
        }
        RetireOne(t, Contents(), visited, current);
        FrontierVisit(t, id, visited, rest, current);
        stack := rest + dependents[current.index];
        ListsVisit(cascade, visited, id, current);
        if current != id { cascade := cascade + [current]; }
        assert current in Owners(t) - visited;
        visited := visited + {current};
        ClearIndex(current.index);
      }
      CascadeDone(t, Contents(), id, visited, cascade);
    }

    /** One edge of a completed job: the body of the loop in `OnCompleted`. */
    method FireEdge(ghost t: Tables, dependent: JobId, before: seq<JobId>,
                    ghost seen: seq<JobId>) returns (promoted: seq<JobId>)
      requires Shape(t) && owner == t.owner && dependents == t.dependents
      requires Counted(t, unsatisfied, before, seen) && dependent.index < |owner|
      modifies this`unsatisfied
      ensures Counted(t, unsatisfied, promoted, seen + [dependent])
    {
      CountedStep(t, unsatisfied, before, seen, dependent);
      promoted := before;
      var d := dependent.index;
      if owner[d] != dependent { return; } // retired or stale
      if unsatisfied[d] > 0 {
        unsatisfied := unsatisfied[d := unsatisfied[d] - 1];
        if unsatisfied[d] == 0 {
          promoted := promoted + [dependent];
        }
      }
    }
  }
}
