/** The ready set: one indexed heap per priority class, drained highest class first. */
module ReadySets {
  import opened Domain
  import opened Heaps
  import opened Placement

  const CLASSES: nat := 4

  /** Per class, the queued jobs and their scores. */
  datatype Queues = Queues(low: map<JobId, Score>, normal: map<JobId, Score>, high: map<JobId, Score>,
                           urgent: map<JobId, Score>) {

    function Of(cls: PriorityClass): map<JobId, Score> {
      match cls case Low => low case Normal => normal case High => high case Urgent => urgent
    }

    function With(cls: PriorityClass, q: map<JobId, Score>): (r: Queues)
      ensures forall c: PriorityClass :: r.Of(c) == if c == cls then q else Of(c)
    {
      match cls
      case Low => this.(low := q)
      case Normal => this.(normal := q)
      case High => this.(high := q)
      case Urgent => this.(urgent := q)
    }
  }

  const NOTHING: Queues := Queues(map[], map[], map[], map[])

  function ClassAt(k: nat): (c: PriorityClass)
    requires k < CLASSES
    ensures c.Ordinal() == k
  {
    if k == 0 then Low else if k == 1 then Normal else if k == 2 then High else Urgent
  }

  predicate Queued(v: Queues, cls: PriorityClass, id: JobId) { id in v.Of(cls) }

  predicate InQueues(v: Queues, e: ReadyEntry) {
    e.job in v.Of(e.cls) && v.Of(e.cls)[e.job] == e.score
  }

  /** Class strictly dominates score; ties go to the older handle. */
  predicate Precedes(a: ReadyEntry, b: ReadyEntry) {
    a.cls.Ordinal() > b.cls.Ordinal() || (a.cls == b.cls && Outranks(a.score, a.job, b.score, b.job))
  }

  function Enqueue(v: Queues, cls: PriorityClass, job: JobId, score: Score): Queues {
    v.With(cls, v.Of(cls)[job := score])
  }

  function Dequeue(v: Queues, cls: PriorityClass, job: JobId): Queues {
    v.With(cls, v.Of(cls) - {job})
  }

  ghost predicate NothingQueued(v: Queues) { forall e :: !InQueues(v, e) }

  /** Taking `out` from `before` in order leaves `after`: each entry preceded everything left when it was taken. */
  ghost predicate Drains(before: Queues, out: seq<ReadyEntry>, after: Queues)
    decreases |out|
  {
    if out == [] then after == before
    else
      var e := out[|out| - 1];
      exists mid: Queues ::
        && Drains(before, out[..|out| - 1], mid)
        && InQueues(mid, e)
        && after == Dequeue(mid, e.cls, e.job)
        && forall x :: InQueues(after, x) ==> Precedes(e, x)
  }

  /** The drained entries were all queued, nothing else was lost, and nothing kept a stale copy. */
  lemma {:induction false} DrainsPartition(before: Queues, out: seq<ReadyEntry>, after: Queues)
    requires Drains(before, out, after)
    ensures forall e :: InQueues(before, e) <==> e in out || InQueues(after, e)
    ensures forall i :: 0 <= i < |out| ==> out[i].job !in after.Of(out[i].cls)
    decreases |out|
  {
    if out != [] {
      var n := |out| - 1;
      var front, e := out[..n], out[n];
      var mid: Queues :| Drains(before, front, mid) && InQueues(mid, e) && after == Dequeue(mid, e.cls, e.job)
                         && forall x :: InQueues(after, x) ==> Precedes(e, x);
      DrainsPartition(before, front, mid);
      DequeueSplits(mid, e);
      forall x ensures InQueues(before, x) <==> x in out || InQueues(after, x) {
        assert x in out <==> x in front || x == e;
      }
      forall i | 0 <= i < |out| ensures out[i].job !in after.Of(out[i].cls) {
        if i < n { assert front[i] == out[i]; }
      }
    }
  }

  lemma DequeueSplits(v: Queues, e: ReadyEntry)
    requires InQueues(v, e)
    ensures forall x :: InQueues(v, x) <==> x == e || InQueues(Dequeue(v, e.cls, e.job), x)
  {}

  /** The drained list is strictly ordered and precedes everything left: it is the top of the queue. */
  lemma {:induction false} DrainsTop(before: Queues, out: seq<ReadyEntry>, after: Queues)
    requires Drains(before, out, after)
    ensures forall i, j :: 0 <= i < j < |out| ==> Precedes(out[i], out[j])
    ensures forall i, x :: 0 <= i < |out| && InQueues(after, x) ==> Precedes(out[i], x)
    decreases |out|
  {
    if out != [] {
      var n := |out| - 1;
      var front, e := out[..n], out[n];
      var mid: Queues :| Drains(before, front, mid) && InQueues(mid, e) && after == Dequeue(mid, e.cls, e.job)
                         && forall x :: InQueues(after, x) ==> Precedes(e, x);
      DrainsTop(before, front, mid);
      forall x | InQueues(after, x) ensures InQueues(mid, x) {}
      forall i, j | 0 <= i < j < |out| ensures Precedes(out[i], out[j]) {
        assert front[i] == out[i];
        if j < n { assert front[j] == out[j]; }
      }
      forall i, x | 0 <= i < |out| && InQueues(after, x) ensures Precedes(out[i], x) {
        if i < n { assert front[i] == out[i]; }
      }
    }
  }

  /** No class of rank `k` or higher has anything queued. */
  ghost predicate EmptyFrom(v: Queues, k: nat) {
    && (k <= 3 ==> v.urgent == map[]) && (k <= 2 ==> v.high == map[])
    && (k <= 1 ==> v.normal == map[]) && (k <= 0 ==> v.low == map[])
  }

  lemma EmptyFromStep(v: Queues, k: nat)
    requires k < CLASSES && EmptyFrom(v, k + 1) && v.Of(ClassAt(k)) == map[]
    ensures EmptyFrom(v, k)
    ensures k == 0 ==> NothingQueued(v)
  {}

  /** The greatest entry of the highest class that has any precedes everything else. */
  lemma TopPrecedes(v: Queues, e: ReadyEntry)
    requires EmptyFrom(v, e.cls.Ordinal() + 1)
    requires forall id :: id in v.Of(e.cls) && id != e.job ==> Outranks(e.score, e.job, v.Of(e.cls)[id], id)
    ensures forall x :: InQueues(Dequeue(v, e.cls, e.job), x) ==> Precedes(e, x)
  {}

  lemma DrainsOneMore(before: Queues, out: seq<ReadyEntry>, mid: Queues, e: ReadyEntry, after: Queues)
    requires Drains(before, out, mid) && InQueues(mid, e) && after == Dequeue(mid, e.cls, e.job)
    requires forall x :: InQueues(after, x) ==> Precedes(e, x)
    ensures Drains(before, out + [e], after)
  {
    var all := out + [e];
    assert all[..|all| - 1] == out && all[|all| - 1] == e;
  }

  predicate Unsealed(k: int) { k == k }

  class ReadySet {
    const low: PriorityHeap
    const normal: PriorityHeap
    const high: PriorityHeap
    const urgent: PriorityHeap

    function Bucket(cls: PriorityClass): PriorityHeap {
      match cls case Low => low case Normal => normal case High => high case Urgent => urgent
    }

    /** Sealed: a client carries this around without seeing inside; `Unsealed` in scope unfolds it. */
    ghost predicate Valid()
      reads low, normal, high, urgent
    {
      forall k: int :: Unsealed(k) ==> Layered()
    }

    ghost predicate Layered()
      reads low, normal, high, urgent
    {
      && low != normal && low != high && low != urgent && normal != high && normal != urgent && high != urgent
      && low.Valid() && normal.Valid() && high.Valid() && urgent.Valid()
    }

    ghost function View(): (v: Queues)
      reads low, normal, high, urgent
      ensures forall c: PriorityClass :: v.Of(c) == Bucket(c).entries
    {
      Queues(low.entries, normal.entries, high.entries, urgent.entries)
    }

    constructor Empty()
      ensures Valid() && View() == NOTHING
      ensures fresh(low) && fresh(normal) && fresh(high) && fresh(urgent)
    {
      var a := new PriorityHeap.Empty();
      var b := new PriorityHeap.Empty();
      var c := new PriorityHeap.Empty();
      var d := new PriorityHeap.Empty();
      low, normal, high, urgent := a, b, c, d;
    }

    /** Afterwards the job is queued in its class, once, at the new score. */
    method Insert(cls: PriorityClass, job: JobId, score: Score)
      requires Valid() && job.index < ABSENT
      requires forall id :: id in View().Of(cls) && id.index == job.index ==> id == job
      modifies low, normal, high, urgent
      ensures Valid() && View() == Enqueue(old(View()), cls, job, score)
    {
      assert Unsealed(0);
      var bucket := Bucket(cls);
      forall id | id in bucket.ids && id.index == job.index ensures id == job {
        assert id in View().Of(cls);
      }
      bucket.Push(job, score);
    }

    method Remove(cls: PriorityClass, job: JobId) returns (present: bool)
      requires Valid()
      modifies low, normal, high, urgent
      ensures Valid() && View() == Dequeue(old(View()), cls, job)
      ensures present == (job in old(View()).Of(cls))
    {
      assert Unsealed(0);
      present := Bucket(cls).Remove(job);
    }

    method PopFrom(k: nat) returns (top: Option<(JobId, Score)>)
      requires Valid() && k < CLASSES
      modifies low, normal, high, urgent
      ensures Valid()
      ensures top == None ==> old(View()).Of(ClassAt(k)) == map[] && View() == old(View())
      ensures top.Some? ==>
                var q := old(View()).Of(ClassAt(k));
                && top.value.0 in q && q[top.value.0] == top.value.1
                && (forall id :: id in q && id != top.value.0 ==> Outranks(top.value.1, top.value.0, q[id], id))
                && View() == Dequeue(old(View()), ClassAt(k), top.value.0)
    {
      assert Unsealed(0);
      top := Bucket(ClassAt(k)).PopMax();
    }

    /** The entry nothing queued precedes, by class, score and age; all others stay. */
    method PopNext() returns (next: Option<ReadyEntry>)
      requires Valid()
      modifies low, normal, high, urgent
      ensures Valid()
      ensures next == None ==> View() == old(View()) && NothingQueued(View())
      ensures next.Some? ==>
                && InQueues(old(View()), next.value)
                && View() == Dequeue(old(View()), next.value.cls, next.value.job)
                && forall x :: InQueues(View(), x) ==> Precedes(next.value, x)
    {
      ghost var v := View();
      var k: nat := CLASSES;
      while k > 0
        invariant k <= CLASSES && Valid() && View() == v
        invariant EmptyFrom(v, k)
      {
        k := k - 1;
        var top := PopFrom(k);
        if top.Some? {
          var e := ReadyEntry(ClassAt(k), top.value.0, top.value.1);
          TopPrecedes(v, e);
          return Some(e);
        }
        EmptyFromStep(v, k);
      }
      return None;
    }

    /** The first `limit` entries in the order they would be popped; the rest stay. */
    method DrainOrdered(limit: nat) returns (out: seq<ReadyEntry>)
      requires Valid()
      modifies low, normal, high, urgent
      ensures Valid() && Drains(old(View()), out, View())
      ensures |out| <= limit && (|out| < limit ==> NothingQueued(View()))
    {
      out := [];
      for i := 0 to limit
        invariant Valid() && Drains(old(View()), out, View()) && |out| == i
      {
        ghost var mid := View();
        var next := PopNext();
        if next == None { return; }
        DrainsOneMore(old(View()), out, mid, next.value, View());
        out := out + [next.value];
      }
    }
  }
}
