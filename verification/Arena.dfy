/** The generational arena: a slot vector with an intrusive free list. */
module Arenas {
  import opened Domain

  datatype Slot<+T> =
    | Occupied(generation: u32, value: T)
    | Vacant(generation: u32, nextFree: Option<u32>)

  /** The arena's contents as a value: what a snapshot stores. */
  datatype View<+T> = View(slots: seq<Slot<T>>, freeHead: Option<u32>)

  datatype RestoreError = BadFreeLink(index: u32) | FreeListIncomplete(reachable: nat, vacant: nat)

  predicate Live<T>(a: View<T>, id: JobId) {
    id.index < |a.slots| && a.slots[id.index].Occupied? && a.slots[id.index].generation == id.generation
  }

  function Get<T>(a: View<T>, id: JobId): (r: Option<T>) {
    if Live(a, id) then Some(a.slots[id.index].value) else None
  }

  function Value<T>(a: View<T>, id: JobId): T
    requires Live(a, id)
  {
    a.slots[id.index].value
  }

  /** The write through `get_mut`. */
  function Put<T>(a: View<T>, id: JobId, value: T): (r: View<T>)
    requires Live(a, id)
    ensures forall x :: Live(r, x) <==> Live(a, x)
    ensures forall x :: Live(a, x) ==> Value(r, x) == if x == id then value else Value(a, x)
  {
    a.(slots := a.slots[id.index := a.slots[id.index].(value := value)])
  }

  /** `id` has been handed out at some point: it is live or its slot has moved past it. */
  predicate Issued<T>(a: View<T>, id: JobId) {
    id.index < |a.slots| &&
    (Live(a, id) || id.generation < a.slots[id.index].generation)
  }

  /** The free list visits exactly the slots in `free`, in that order. */
  ghost predicate Chain<T>(slots: seq<Slot<T>>, head: Option<u32>, free: seq<nat>)
    decreases |free|
  {
    if free == [] then head == None
    else
      && head.Some? && head.value == free[0]
      && free[0] < |slots|
      && slots[free[0]].Vacant?
      && Chain(slots, slots[free[0]].nextFree, free[1..])
  }

  /** The tail of the free list that starts at its `k`-th entry. */
  ghost predicate ChainAt<T>(slots: seq<Slot<T>>, free: seq<nat>, k: nat)
    requires k < |free|
  {
    free[k] <= U32_MAX && Chain(slots, Some(free[k]), free[k..])
  }

  ghost predicate Distinct(s: seq<nat>) {
    forall i, j :: 0 <= i < j < |s| ==> s[i] != s[j]
  }

  /** Every vacant slot is on the free list exactly once. */
  ghost predicate FreeListExact<T>(slots: seq<Slot<T>>, head: Option<u32>, free: seq<nat>) {
    && Chain(slots, head, free)
    && Distinct(free)
    && forall i: nat :: i < |slots| && slots[i].Vacant? ==> i in free
  }

  ghost predicate WellFormed<T(!new)>(a: View<T>) {
    |a.slots| <= U32_MAX + 1 && exists free :: FreeListExact(a.slots, a.freeHead, free)
  }

  function CountVacant<T>(slots: seq<Slot<T>>): nat {
    if slots == [] then 0
    else CountVacant(slots[..|slots| - 1]) + if slots[|slots| - 1].Vacant? then 1 else 0
  }

  // ---- the free list as a value ----

  lemma {:induction false} ChainMembers<T>(slots: seq<Slot<T>>, head: Option<u32>, free: seq<nat>)
    requires Chain(slots, head, free)
    ensures forall k :: 0 <= k < |free| ==> free[k] < |slots| && slots[free[k]].Vacant?
    ensures forall k :: 0 <= k < |free| ==> ChainAt(slots, free, k)
    decreases |free|
  {
    if free != [] {
      ChainMembers(slots, slots[free[0]].nextFree, free[1..]);
      forall k | 0 <= k < |free|
        ensures free[k] < |slots| && slots[free[k]].Vacant? && ChainAt(slots, free, k)
      {
        if k == 0 {
          assert free[0..] == free && head == Some(free[0]);
        } else {
          assert ChainAt(slots, free[1..], k - 1);
          assert free[1..][k - 1] == free[k] && free[1..][k - 1..] == free[k..];
        }
      }
    }
  }

  /** A chain is determined by its head: it cannot end at two different lengths. */
  lemma {:induction false} ChainUnique<T>(slots: seq<Slot<T>>, head: Option<u32>, p: seq<nat>, q: seq<nat>)
    requires Chain(slots, head, p) && Chain(slots, head, q)
    ensures p == q
    decreases |p|
  {
    if p != [] && q != [] {
      ChainUnique(slots, slots[p[0]].nextFree, p[1..], q[1..]);
      assert p == [p[0]] + p[1..] && q == [q[0]] + q[1..];
    }
  }

  /** A chain that ends visits no slot twice: a repeat would make it endless. */
  lemma ChainDistinct<T>(slots: seq<Slot<T>>, head: Option<u32>, free: seq<nat>)
    requires Chain(slots, head, free)
    ensures Distinct(free)
  {
    ChainMembers(slots, head, free);
    forall i, j | 0 <= i < j < |free| ensures free[i] != free[j] {
      if free[i] == free[j] {
        assert ChainAt(slots, free, i) && ChainAt(slots, free, j);
        ChainUnique(slots, Some(free[i]), free[i..], free[j..]);
      }
    }
  }

  /** Slots off the chain can be rewritten without disturbing it. */
  lemma {:induction false} ChainFrame<T>(slots: seq<Slot<T>>, slots': seq<Slot<T>>, head: Option<u32>, free: seq<nat>)
    requires Chain(slots, head, free)
    requires |slots| <= |slots'|
    requires forall i: nat :: i in free && i < |slots| ==> slots'[i] == slots[i]
    ensures Chain(slots', head, free)
    decreases |free|
  {
    if free != [] {
      assert free[0] in free;
      ChainFrame(slots, slots', slots[free[0]].nextFree, free[1..]);
    }
  }

  ghost function VacantSet<T>(slots: seq<Slot<T>>): set<nat>
    requires |slots| <= U32_MAX + 1
  {
    set i: nat | i < |slots| && slots[i].Vacant?
  }

  lemma {:induction false} CountVacantIsCard<T>(slots: seq<Slot<T>>)
    requires |slots| <= U32_MAX + 1
    ensures CountVacant(slots) == |VacantSet(slots)|
  {
    if slots != [] {
      var n := |slots| - 1;
      CountVacantIsCard(slots[..n]);
      if slots[n].Vacant? {
        assert VacantSet(slots) == VacantSet(slots[..n]) + {n};
      } else {
        assert VacantSet(slots) == VacantSet(slots[..n]);
      }
    } else {
      assert VacantSet(slots) == {};
    }
  }

  lemma {:induction false} DistinctCard(s: seq<nat>)
    requires Distinct(s)
    ensures |Elements(s)| == |s|
  {
    if s != [] {
      var n := |s| - 1;
      DistinctCard(s[..n]);
      assert s[n] !in s[..n];
      assert Elements(s) == Elements(s[..n]) + {s[n]};
    }
  }

  lemma SubsetOfEqualCard(a: set<nat>, b: set<nat>)
    requires a <= b && |a| == |b|
    ensures a == b
  {
    if a != b {
      var x :| x in b && x !in a;
      SubsetCard(a, b - {x});
    }
  }

  lemma {:induction false} SubsetCard(a: set<nat>, b: set<nat>)
    requires a <= b
    ensures |a| <= |b|
    decreases a
  {
    if a != {} {
      var x :| x in a;
      SubsetCard(a - {x}, b - {x});
    }
  }

  /** A complete chain covers the vacant slots exactly when it is as long as their count. */
  lemma ChainCoversIffLength<T>(slots: seq<Slot<T>>, head: Option<u32>, free: seq<nat>)
    requires |slots| <= U32_MAX + 1
    requires Chain(slots, head, free)
    ensures FreeListExact(slots, head, free) <==> |free| == CountVacant(slots)
    ensures |free| <= CountVacant(slots)
  {
    ChainMembers(slots, head, free);
    ChainDistinct(slots, head, free);
    CountVacantIsCard(slots);
    DistinctCard(free);
    var on := Elements(free);
    assert on <= VacantSet(slots);
    SubsetCard(on, VacantSet(slots));
    if |free| == CountVacant(slots) {
      SubsetOfEqualCard(on, VacantSet(slots));
      forall i: nat | i < |slots| && slots[i].Vacant? ensures i in free {
        assert i in VacantSet(slots);
      }
    }
    if FreeListExact(slots, head, free) {
      SubsetCard(VacantSet(slots), on);
    }
  }

  // ---- what insert and remove do to a value ----

  /** The handle the next insert returns. */
  function NextId<T>(a: View<T>): (id: JobId)
    requires a.freeHead.Some? ==> a.freeHead.value < |a.slots|
    requires a.freeHead == None ==> |a.slots| <= U32_MAX
  {
    match a.freeHead
    case Some(i) => JobId(i, a.slots[i].generation)
    case None => JobId(|a.slots|, 0)
  }

  /** Room for one more job: the source panics when the index would leave `u32`. */
  predicate HasRoom<T>(a: View<T>) { a.freeHead.Some? || |a.slots| <= U32_MAX }

  function Insert<T>(a: View<T>, value: T): (r: View<T>)
    requires HasRoom(a) && (a.freeHead.Some? ==> a.freeHead.value < |a.slots| && a.slots[a.freeHead.value].Vacant?)
  {
    match a.freeHead
    case Some(i) => View(a.slots[i := Occupied(a.slots[i].generation, value)], a.slots[i].nextFree)
    case None => View(a.slots + [Occupied(0, value)], None)
  }

  function Remove<T>(a: View<T>, id: JobId): (r: View<T>)
    requires Live(a, id)
  {
    var next := if id.generation == U32_MAX then 0 else id.generation + 1;
    View(a.slots[id.index := Vacant(next, a.freeHead)], Some(id.index))
  }

  lemma FreeHeadIsVacant<T(!new)>(a: View<T>)
    requires WellFormed(a)
    ensures a.freeHead.Some? ==> a.freeHead.value < |a.slots| && a.slots[a.freeHead.value].Vacant?
  {
    var free: seq<nat> :| FreeListExact(a.slots, a.freeHead, free);
  }

  /** `next_id` predicts `insert`; the new handle was never issued before; nothing else changes. */
  lemma InsertIssuesNextId<T(!new)>(a: View<T>, value: T)
    requires WellFormed(a) && HasRoom(a)
    ensures a.freeHead.Some? ==> a.freeHead.value < |a.slots| && a.slots[a.freeHead.value].Vacant?
    ensures var r := Insert(a, value);
            var id := NextId(a);
            && WellFormed(r)
            && !Issued(a, id)
            && Live(r, id) && Value(r, id) == value
            && (forall x :: Live(r, x) <==> Live(a, x) || x == id)
            && (forall x :: Live(a, x) ==> Value(r, x) == Value(a, x))
            && (forall x :: Issued(r, x) <==> Issued(a, x) || x == id)
  {
    var free: seq<nat> :| FreeListExact(a.slots, a.freeHead, free);
    var r := Insert(a, value);
    if free == [] {
      ChainFrame(a.slots, r.slots, r.freeHead, free);
      assert FreeListExact(r.slots, r.freeHead, free);
    } else {
      assert free[0] !in free[1..];
      ChainFrame(a.slots, r.slots, r.freeHead, free[1..]);
      forall i: nat | i < |r.slots| && r.slots[i].Vacant? ensures i in free[1..] {
        assert i in free;
      }
      assert FreeListExact(r.slots, r.freeHead, free[1..]);
    }
  }

  /** Removal retires exactly one handle; while no generation wraps, it stays retired. */
  lemma RemoveRetires<T(!new)>(a: View<T>, id: JobId)
    requires WellFormed(a) && Live(a, id)
    ensures var r := Remove(a, id);
            && WellFormed(r)
            && (forall x :: Live(r, x) <==> Live(a, x) && x != id)
            && (forall x :: Live(r, x) ==> Value(r, x) == Value(a, x))
            && (id.generation < U32_MAX ==> forall x :: Issued(r, x) <==> Issued(a, x))
  {
    var free: seq<nat> :| FreeListExact(a.slots, a.freeHead, free);
    var r := Remove(a, id);
    ChainMembers(a.slots, a.freeHead, free);
    assert id.index !in free;
    ChainFrame(a.slots, r.slots, a.freeHead, free);
    var free' := [id.index] + free;
    assert free'[1..] == free;
    assert FreeListExact(r.slots, r.freeHead, free');
  }

  lemma PutKeepsShape<T(!new)>(a: View<T>, id: JobId, value: T)
    requires WellFormed(a) && Live(a, id)
    ensures WellFormed(Put(a, id, value))
    ensures forall x :: Issued(Put(a, id, value), x) <==> Issued(a, x)
  {
    var free: seq<nat> :| FreeListExact(a.slots, a.freeHead, free);
    var r := Put(a, id, value);
    ChainMembers(a.slots, a.freeHead, free);
    assert id.index !in free;
    ChainFrame(a.slots, r.slots, a.freeHead, free);
    assert FreeListExact(r.slots, r.freeHead, free);
  }

  // ---- runs of operations ----

  datatype Op<T> = Ins(value: T) | Rem(id: JobId)

  /** An arena after a sequence of operations; `None` where the source would panic. */
  ghost function Run<T(!new)>(a: View<T>, ops: seq<Op<T>>): (r: Option<View<T>>)
    decreases |ops|
  {
    if ops == [] then Some(a)
    else match ops[0]
      case Ins(v) =>
        if WellFormed(a) && HasRoom(a) then
          FreeHeadIsVacant(a);
          Run(Insert(a, v), ops[1..])
        else None
      case Rem(id) => if Live(a, id) then Run(Remove(a, id), ops[1..]) else Run(a, ops[1..])
  }

  /** No operation of the run removes a slot standing at the last generation. */
  ghost predicate NeverWraps<T(!new)>(a: View<T>, ops: seq<Op<T>>)
    decreases |ops|
  {
    ops == [] ||
    match ops[0]
    case Ins(v) => WellFormed(a) && HasRoom(a) ==> (FreeHeadIsVacant(a); NeverWraps(Insert(a, v), ops[1..]))
    case Rem(id) =>
      if Live(a, id) then id.generation < U32_MAX && NeverWraps(Remove(a, id), ops[1..])
      else NeverWraps(a, ops[1..])
  }

  /** A handle that was removed never resolves again, whatever is inserted or removed afterwards. */
  lemma {:induction false} StaleHandleNeverResolves<T(!new)>(a: View<T>, id: JobId, ops: seq<Op<T>>)
    requires WellFormed(a) && Issued(a, id) && !Live(a, id)
    requires NeverWraps(a, ops) && Run(a, ops).Some?
    ensures Get(Run(a, ops).value, id) == None
    decreases |ops|
  {
    if ops != [] {
      match ops[0]
      case Ins(v) =>
        InsertIssuesNextId(a, v);
        StaleHandleNeverResolves(Insert(a, v), id, ops[1..]);
      case Rem(x) =>
        if Live(a, x) {
          RemoveRetires(a, x);
          StaleHandleNeverResolves(Remove(a, x), id, ops[1..]);
        } else {
          StaleHandleNeverResolves(a, id, ops[1..]);
        }
    }
  }

  /** Following links from `head` passes the slots in `seen` and arrives at `cursor`. */
  ghost predicate Walk<T>(slots: seq<Slot<T>>, head: Option<u32>, seen: seq<nat>, cursor: Option<u32>)
    decreases |seen|
  {
    if seen == [] then head == cursor
    else
      && head.Some? && head.value == seen[0]
      && seen[0] < |slots|
      && slots[seen[0]].Vacant?
      && Walk(slots, slots[seen[0]].nextFree, seen[1..], cursor)
  }

  lemma {:induction false} WalkStep<T>(slots: seq<Slot<T>>, head: Option<u32>, seen: seq<nat>, index: u32)
    requires Walk(slots, head, seen, Some(index))
    requires index < |slots| && slots[index].Vacant?
    ensures Walk(slots, head, seen + [index], slots[index].nextFree)
    decreases |seen|
  {
    if seen != [] {
      WalkStep(slots, slots[seen[0]].nextFree, seen[1..], index);
      assert (seen + [index])[1..] == seen[1..] + [index];
    }
  }

  lemma {:induction false} WalkToEnd<T>(slots: seq<Slot<T>>, head: Option<u32>, seen: seq<nat>)
    requires Walk(slots, head, seen, None)
    ensures Chain(slots, head, seen)
    decreases |seen|
  {
    if seen != [] { WalkToEnd(slots, slots[seen[0]].nextFree, seen[1..]); }
  }

  /** A walk stays on the chain, if there is one. */
  lemma {:induction false} WalkFollowsChain<T>(slots: seq<Slot<T>>, head: Option<u32>, seen: seq<nat>,
      cursor: Option<u32>, free: seq<nat>)
    requires Walk(slots, head, seen, cursor) && Chain(slots, head, free)
    ensures |seen| <= |free| && Chain(slots, cursor, free[|seen|..])
    decreases |seen|
  {
    if seen == [] {
      assert free[0..] == free;
    } else {
      WalkFollowsChain(slots, slots[seen[0]].nextFree, seen[1..], cursor, free[1..]);
      assert free[1..][|seen| - 1..] == free[|seen|..];
    }
  }

  /** The check inside `from_parts`: walk the list once, never past the vacant count. */
  method CheckFreeList<T(!new)>(slots: seq<Slot<T>>, freeHead: Option<u32>) returns (error: Option<RestoreError>)
    requires |slots| <= U32_MAX + 1
    ensures error == None <==> WellFormed(View(slots, freeHead))
  {
    var vacant := CountVacant(slots);
    var cursor := freeHead;
    var reachable := 0;
    ghost var seen: seq<nat> := [];
    while cursor.Some?
      invariant reachable == |seen| <= vacant
      invariant Walk(slots, freeHead, seen, cursor)
      decreases vacant - reachable + if cursor.Some? then 1 else 0
    {
      var index := cursor.value;
      if !(index < |slots| && slots[index].Vacant? && reachable < vacant) {
        forall free | FreeListExact(slots, freeHead, free) ensures false {
          ChainCoversIffLength(slots, freeHead, free);
          WalkFollowsChain(slots, freeHead, seen, cursor, free);
        }
        return Some(BadFreeLink(index));
      }
      WalkStep(slots, freeHead, seen, index);
      cursor := slots[index].nextFree;
      reachable := reachable + 1;
      seen := seen + [index];
    }
    WalkToEnd(slots, freeHead, seen);
    ChainCoversIffLength(slots, freeHead, seen);
    if reachable != vacant {
      forall free | FreeListExact(slots, freeHead, free) ensures false {
        ChainUnique(slots, freeHead, free, seen);
      }
      return Some(FreeListIncomplete(reachable, vacant));
    }
    return None;
  }

  /** The arena object. */
  class Arena<T(!new)> {
    var slots: seq<Slot<T>>
    var freeHead: Option<u32>
    var len: nat

    function Contents(): View<T> reads this { View(slots, freeHead) }

    ghost predicate Valid() reads this {
      WellFormed(Contents()) && len + CountVacant(slots) == |slots|
    }

    constructor Empty()
      ensures Valid() && Contents() == View([], None)
    {
      slots, freeHead, len := [], None, 0;
      new;
      assert FreeListExact<T>([], None, []);
    }

    /** Rebuilds the arena a snapshot describes, once `CheckFreeList` has accepted it. */
    constructor FromParts(slots: seq<Slot<T>>, freeHead: Option<u32>)
      requires WellFormed(View(slots, freeHead))
      ensures Valid() && Contents() == View(slots, freeHead)
    {
      CountVacantBound(slots);
      this.slots, this.freeHead, this.len := slots, freeHead, |slots| - CountVacant(slots);
    }

    method InsertValue(value: T) returns (id: JobId)
      requires Valid() && HasRoom(Contents())
      modifies this
      ensures Valid()
      ensures old(freeHead.Some? ==> freeHead.value < |slots| && slots[freeHead.value].Vacant?)
      ensures id == old(NextId(Contents()))
      ensures Contents() == Insert(old(Contents()), value)
    {
      FreeHeadIsVacant(Contents());
      InsertIssuesNextId(Contents(), value);
      len := len + 1;
      if freeHead.Some? {
        var index := freeHead.value;
        var slot := slots[index];
        CountVacantUpdate(slots, index, Occupied(slot.generation, value));
        freeHead := slot.nextFree;
        slots := slots[index := Occupied(slot.generation, value)];
        id := JobId(index, slot.generation);
      } else {
        id := JobId(|slots|, 0);
        assert (slots + [Occupied(0, value)])[..|slots|] == slots;
        slots := slots + [Occupied(0, value)];
      }
    }

    method RemoveId(id: JobId) returns (previous: Option<T>)
      requires Valid()
      modifies this
      ensures Valid()
      ensures previous == old(Get(Contents(), id))
      ensures Contents() == if previous.Some? then Remove(old(Contents()), id) else old(Contents())
    {
      if !Live(Contents(), id) { return None; }
      RemoveRetires(Contents(), id);
      previous := Some(slots[id.index].value);
      var next := if id.generation == U32_MAX then 0 else id.generation + 1;
      CountVacantUpdate(slots, id.index, Vacant(next, freeHead));
      slots := slots[id.index := Vacant(next, freeHead)];
      freeHead := Some(id.index);
      CountVacantBound(slots);
      len := len - 1;
    }

    /** The write through `get_mut`. */
    method SetValue(id: JobId, value: T)
      requires Valid() && Live(Contents(), id)
      modifies this
      ensures Valid() && Contents() == Put(old(Contents()), id, value)
    {
      PutKeepsShape(Contents(), id, value);
      CountVacantUpdate(slots, id.index, slots[id.index].(value := value));
      slots := slots[id.index := slots[id.index].(value := value)];
    }
  }

  /** The arena a snapshot describes; refused exactly when its free list is not what the vacant slots say. */
  method Restored<T(!new)>(slots: seq<Slot<T>>, freeHead: Option<u32>)
    returns (arena: Option<Arena<T>>, error: Option<RestoreError>)
    requires |slots| <= U32_MAX + 1
    ensures (arena.Some? <==> error == None) && (arena.Some? <==> WellFormed(View(slots, freeHead)))
    ensures arena.Some? ==> fresh(arena.value) && arena.value.Valid() && arena.value.Contents() == View(slots, freeHead)
  {
    error := CheckFreeList(slots, freeHead);
    if error.Some? { return None, error; }
    var restored := new Arena.FromParts(slots, freeHead);
    arena := Some(restored);
  }

  lemma {:induction false} CountVacantUpdate<T>(slots: seq<Slot<T>>, i: nat, s: Slot<T>)
    requires i < |slots|
    ensures CountVacant(slots[i := s]) + (if slots[i].Vacant? then 1 else 0)
         == CountVacant(slots) + (if s.Vacant? then 1 else 0)
  {
    var n := |slots| - 1;
    if i < n {
      CountVacantUpdate(slots[..n], i, s);
      assert slots[i := s][..n] == slots[..n][i := s];
    } else {
      assert slots[i := s][..n] == slots[..n];
    }
  }

  lemma {:induction false} CountVacantBound<T>(slots: seq<Slot<T>>)
    ensures CountVacant(slots) <= |slots|
  {
    if slots != [] { CountVacantBound(slots[..|slots| - 1]); }
  }
}
