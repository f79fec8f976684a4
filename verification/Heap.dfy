/** An indexed binary max-heap: scores and ids in parallel arrays, and where each id sits. */
module Heaps {
  import opened Domain
  import Arenas

  /** This index holds no heap entry. */
  const ABSENT: nat := 0xFFFF_FFFF

  /** Higher score first, then the older (smaller) handle. */
  predicate Outranks(s: Score, a: JobId, t: Score, b: JobId) {
    s > t || (s == t && a.Bits() < b.Bits())
  }

  /** The same order as one number. */
  function Rank(score: Score, id: JobId): int {
    score * 0x1_0000_0000_0000_0000 + (U64_MAX - id.Bits())
  }

  lemma RankIsOrder(s: Score, a: JobId, t: Score, b: JobId)
    ensures Outranks(s, a, t, b) <==> Rank(s, a) > Rank(t, b)
    ensures Rank(s, a) == Rank(t, b) ==> a == b
  {}

  /** The heap's three arrays as a value. */
  datatype Layout = Layout(scores: seq<Score>, ids: seq<JobId>, positions: seq<nat>) {

    /** The position table is exact in both directions. */
    predicate Indexed() {
      && |scores| == |ids| && |positions| <= ABSENT
      && (forall k :: 0 <= k < |ids| ==> ids[k].index < |positions| && positions[ids[k].index] == k)
      && (forall i :: 0 <= i < |positions| && positions[i] != ABSENT ==>
          positions[i] < |ids| && ids[positions[i]].index == i)
    }

    function Ranks(): (r: seq<int>)
      requires |scores| == |ids|
      ensures |r| == |ids| && forall k :: 0 <= k < |ids| ==> r[k] == Rank(scores[k], ids[k])
    {
      seq(|ids|, k requires 0 <= k < |ids| => Rank(scores[k], ids[k]))
    }

    ghost function Entries(): (m: map<JobId, Score>)
      requires Indexed()
    {
      map id | id in ids :: scores[positions[id.index]]
    }

    function Swapped(a: nat, b: nat): (r: Layout)
      requires Indexed() && a < |ids| && b < |ids|
    {
      Layout(scores[a := scores[b]][b := scores[a]], ids[a := ids[b]][b := ids[a]],
             positions[ids[b].index := a][ids[a].index := b])
    }
  }

  // ---- heap order on ranks alone ----

  function Parent(k: nat): nat requires k > 0 { (k - 1) / 2 }

  /** Every entry is outranked by its parent. */
  ghost predicate Ordered(r: seq<int>) {
    forall k :: 0 < k < |r| ==> r[k] <= r[Parent(k)]
  }

  /** Ordered except that the entry at `p` may outrank its parent. */
  ghost predicate DefectUp(r: seq<int>, p: nat) {
    && p < |r|
    && (forall k :: 0 < k < |r| && k != p ==> r[k] <= r[Parent(k)])
    && (p > 0 ==> forall k :: 0 < k < |r| && Parent(k) == p ==> r[k] <= r[Parent(p)])
  }

  /** Ordered except that children of `p` may outrank it. */
  ghost predicate DefectDown(r: seq<int>, p: nat) {
    && p < |r|
    && (forall k :: 0 < k < |r| && Parent(k) != p ==> r[k] <= r[Parent(k)])
    && (p > 0 ==> forall k :: 0 < k < |r| && Parent(k) == p ==> r[k] <= r[Parent(p)])
  }

  function Exchange(r: seq<int>, a: nat, b: nat): seq<int>
    requires a < |r| && b < |r|
  {
    r[a := r[b]][b := r[a]]
  }

  lemma {:induction false} RootIsGreatest(r: seq<int>, k: nat)
    requires Ordered(r) && k < |r|
    ensures r[k] <= r[0]
  {
    if k > 0 { RootIsGreatest(r, Parent(k)); }
  }

  /** Swapping an entry with the parent it outranks moves the defect one level up. */
  lemma SiftUpStep(r: seq<int>, p: nat)
    requires p > 0 && DefectUp(r, p) && r[p] > r[Parent(p)]
    ensures DefectUp(Exchange(r, p, Parent(p)), Parent(p))
  {}

  /** Swapping an entry with its greatest child moves the defect one level down. */
  lemma SiftDownStep(r: seq<int>, p: nat, c: nat)
    requires DefectDown(r, p) && p < c < |r| && Parent(c) == p && r[c] > r[p]
    requires forall k :: 0 < k < |r| && Parent(k) == p ==> r[k] <= r[c]
    ensures DefectDown(Exchange(r, p, c), c)
  {}

  lemma OrderedHasNoDefect(r: seq<int>, p: nat)
    requires Ordered(r) && p < |r|
    ensures DefectUp(r, p)
  {}

  /** A new rank leaves at most one direction to repair. */
  lemma RescoreDefect(r: seq<int>, p: nat, x: int)
    requires Ordered(r) && p < |r|
    ensures x >= r[p] ==> DefectUp(r[p := x], p)
    ensures x <= r[p] ==> DefectDown(r[p := x], p)
  {}

  lemma AppendDefect(r: seq<int>, x: int)
    requires Ordered(r)
    ensures DefectUp(r + [x], |r|)
  {}

  /** The last entry dropped into a hole can be wrong in one direction only. */
  lemma RemoveDefect(r: seq<int>, s: seq<int>, p: nat)
    requires Ordered(r) && p < |r| == |s| + 1
    requires forall k :: 0 <= k < |s| ==> s[k] == r[if k == p then |s| else k]
    ensures p == |s| ==> Ordered(s)
    ensures p < |s| ==> DefectDown(s, p) || DefectUp(s, p)
  {
    if p < |s| {
      forall k | 0 < k < |s| && Parent(k) == p && p > 0 ensures s[k] <= s[Parent(p)] {
        assert r[k] <= r[p] <= r[Parent(p)];
      }
    }
  }

  lemma ChildrenOf(p: nat, k: nat)
    requires k > 0
    ensures Parent(k) == p <==> k == 2 * p + 1 || k == 2 * p + 2
  {}

  // ---- the position table ----

  lemma EntryAt(l: Layout, k: nat)
    requires l.Indexed() && k < |l.ids|
    ensures l.ids[k] in l.Entries() && l.Entries()[l.ids[k]] == l.scores[k]
  {}

  lemma SwapIndexed(l: Layout, a: nat, b: nat)
    requires l.Indexed() && a < |l.ids| && b < |l.ids|
    ensures l.Swapped(a, b).Indexed()
  {
    assert forall k, m :: 0 <= k < m < |l.ids| ==> l.ids[k].index != l.ids[m].index;
  }

  /** `r` holds the entries of `l` with those at `a` and `b` exchanged. */
  ghost predicate Exchanged(l: Layout, r: Layout, a: nat, b: nat) {
    && l.Indexed() && r.Indexed() && |r.ids| == |l.ids| && a < |l.ids| && b < |l.ids|
    && forall k :: 0 <= k < |l.ids| ==>
         var from := if k == a then b else if k == b then a else k;
         r.ids[k] == l.ids[from] && r.scores[k] == l.scores[from]
  }

  lemma ExchangedEntries(l: Layout, r: Layout, a: nat, b: nat)
    requires Exchanged(l, r, a, b)
    ensures r.Entries() == l.Entries()
  {
    forall id | id in l.ids ensures id in r.ids && r.Entries()[id] == l.Entries()[id] {
      var k :| 0 <= k < |l.ids| && l.ids[k] == id;
      var k' := if k == a then b else if k == b then a else k;
      assert r.ids[k'] == id;
      EntryAt(l, k);
      EntryAt(r, k');
    }
    forall id | id in r.ids ensures id in l.ids {
      var k :| 0 <= k < |r.ids| && r.ids[k] == id;
      assert l.ids[if k == a then b else if k == b then a else k] == id;
    }
  }

  lemma SwapKeepsEntries(l: Layout, a: nat, b: nat)
    requires l.Indexed() && a < |l.ids| && b < |l.ids|
    ensures var r := l.Swapped(a, b);
            r.Indexed() && r.Entries() == l.Entries() && r.Ranks() == Exchange(l.Ranks(), a, b)
  {
    SwapIndexed(l, a, b);
    var r := l.Swapped(a, b);
    assert Exchanged(l, r, a, b);
    ExchangedEntries(l, r, a, b);
    assert r.Ranks() == Exchange(l.Ranks(), a, b);
  }

  function Rescored(l: Layout, p: nat, score: Score): (r: Layout)
    requires l.Indexed() && p < |l.ids|
  {
    l.(scores := l.scores[p := score])
  }

  lemma RescoreEntries(l: Layout, p: nat, score: Score)
    requires l.Indexed() && p < |l.ids|
    ensures var r := Rescored(l, p, score);
            r.Indexed() && r.Entries() == l.Entries()[l.ids[p] := score]
                && r.Ranks() == l.Ranks()[p := Rank(score, l.ids[p])]
  {
    var r := Rescored(l, p, score);
    assert r.Indexed();
    forall id | id in l.ids ensures r.scores[r.positions[id.index]] == if id == l.ids[p] then score
        else l.scores[l.positions[id.index]] {
      var k :| 0 <= k < |l.ids| && l.ids[k] == id;
    }
  }

  /** One id per arena index. */
  ghost predicate OnePerIndex(l: Layout, job: JobId) {
    forall id :: id in l.ids && id.index == job.index ==> id == job
  }

  /** The position table after covering `job` and placing it last. */
  function Appended(l: Layout, job: JobId, score: Score): (r: Layout)
    requires l.Indexed()
  {
    var extra := if job.index < |l.positions| then 0 else job.index + 1 - |l.positions|;
    var grown := l.positions + seq(extra, _ => ABSENT);
    Layout(l.scores + [score], l.ids + [job], grown[job.index := |l.ids|])
  }

  lemma AppendIndexed(l: Layout, job: JobId, score: Score)
    requires l.Indexed() && job !in l.ids && OnePerIndex(l, job) && job.index < ABSENT
    ensures Appended(l, job, score).Indexed()
    ensures forall k :: 0 <= k < |l.ids| ==> l.ids[k].index != job.index
  {
    forall k | 0 <= k < |l.ids| ensures l.ids[k].index != job.index { assert l.ids[k] in l.ids; }
  }

  lemma AppendEntries(l: Layout, job: JobId, score: Score)
    requires l.Indexed() && job !in l.ids && OnePerIndex(l, job) && job.index < ABSENT
    ensures var r := Appended(l, job, score);
            r.Indexed() && r.Entries() == l.Entries()[job := score] && r.Ranks() == l.Ranks() + [Rank(score, job)]
  {
    AppendIndexed(l, job, score);
    var r := Appended(l, job, score);
    forall id | id in l.ids ensures r.scores[r.positions[id.index]] == l.scores[l.positions[id.index]] {
      var k :| 0 <= k < |l.ids| && l.ids[k] == id;
    }
    assert r.ids[|l.ids|] == job;
  }

  /** The layout after the entry at `p` is replaced by the last one. */
  function Removed(l: Layout, p: nat): (r: Layout)
    requires l.Indexed() && p < |l.ids|
  {
    var last := |l.ids| - 1;
    var blanked := l.positions[l.ids[p].index := ABSENT];
    if p == last then Layout(l.scores[..last], l.ids[..last], blanked)
    else Layout(l.scores[p := l.scores[last]][..last], l.ids[p := l.ids[last]][..last], blanked[l.ids[last].index := p])
  }

  /** `r` holds the entries of `l` other than the one at `p`, the last moved into its place. */
  ghost predicate Shifted(l: Layout, r: Layout, p: nat) {
    && l.Indexed() && r.Indexed() && p < |l.ids| && |r.ids| == |l.ids| - 1
    && forall k :: 0 <= k < |r.ids| ==>
         var from := if k == p then |r.ids| else k;
         r.ids[k] == l.ids[from] && r.scores[k] == l.scores[from]
  }

  lemma RemoveShifts(l: Layout, p: nat)
    requires l.Indexed() && p < |l.ids|
    ensures Shifted(l, Removed(l, p), p)
  {
    assert forall k, m :: 0 <= k < m < |l.ids| ==> l.ids[k].index != l.ids[m].index;
  }

  lemma RemoveEntries(l: Layout, r: Layout, p: nat)
    requires Shifted(l, r, p)
    ensures r.Entries() == l.Entries() - {l.ids[p]}
  {
    var last := |r.ids|;
    forall id | id in l.ids && id != l.ids[p] ensures id in r.ids && r.Entries()[id] == l.Entries()[id] {
      var k :| 0 <= k < |l.ids| && l.ids[k] == id;
      var k' := if k == last then p else k;
      assert r.ids[k'] == id;
      EntryAt(r, k');
      EntryAt(l, k);
    }
    forall id | id in r.ids ensures id in l.ids && id != l.ids[p] {
      var k :| 0 <= k < |r.ids| && r.ids[k] == id;
      assert l.ids[if k == p then last else k] == id;
    }
  }

  ghost function Below(n: nat): (r: set<nat>)
    ensures |r| == n && forall i: nat :: i in r <==> i < n
  {
    if n == 0 then {} else Below(n - 1) + {n - 1}
  }

  /** Distinct indices bound the length: a heap position always differs from `ABSENT`. */
  lemma HeapFits(l: Layout)
    requires l.Indexed()
    ensures |l.ids| <= |l.positions|
  {
    var s: seq<nat> := seq(|l.ids|, k requires 0 <= k < |l.ids| => l.ids[k].index);
    Arenas.DistinctCard(s);
    Arenas.SubsetCard(Elements(s), Below(|l.positions|));
  }

  class PriorityHeap {
    var scores: seq<Score>
    var ids: seq<JobId>
    var positions: seq<nat>

    /** The queue this heap stands for. */
    ghost var entries: map<JobId, Score>

    function View(): Layout reads this { Layout(scores, ids, positions) }

    ghost predicate Indexed() reads this { View().Indexed() && entries == View().Entries() }

    ghost predicate Valid() reads this { Indexed() && Ordered(View().Ranks()) }

    constructor Empty()
      ensures Valid() && entries == map[]
    {
      scores, ids, positions, entries := [], [], [], map[];
    }

    method Swap(a: nat, b: nat)
      requires Indexed() && a < |ids| && b < |ids|
      modifies this`scores, this`ids, this`positions
      ensures Indexed() && |ids| == old(|ids|)
      ensures View().Ranks() == Exchange(old(View().Ranks()), a, b)
    {
      SwapKeepsEntries(View(), a, b);
      scores := scores[a := scores[b]][b := scores[a]];
      var ia, ib := ids[a], ids[b];
      ids := ids[a := ib][b := ia];
      positions := positions[ib.index := a];
      positions := positions[ia.index := b];
      assert View() == old(View()).Swapped(a, b);
    }

    method SiftUp(start: nat)
      requires Indexed() && start < |ids| && DefectUp(View().Ranks(), start)
      modifies this`scores, this`ids, this`positions
      ensures Valid() && |ids| == old(|ids|)
    {
      var position: nat := start;
      while position > 0
        invariant position < |ids| == old(|ids|) && Indexed() && DefectUp(View().Ranks(), position)
      {
        var parent := Parent(position);
        RankIsOrder(scores[position], ids[position], scores[parent], ids[parent]);
        if !Outranks(scores[position], ids[position], scores[parent], ids[parent]) { return; }
        SiftUpStep(View().Ranks(), position);
        Swap(position, parent);
        position := parent;
      }
    }

    /** The greatest of `position` and its children. */
    method Largest(position: nat) returns (largest: nat)
      requires View().Indexed() && position < |ids|
      ensures largest < |ids| && (largest == position || (position < largest && Parent(largest) == position))
      ensures largest != position ==> View().Ranks()[largest] > View().Ranks()[position]
      ensures forall k :: 0 < k < |ids| && Parent(k) == position ==> View().Ranks()[k] <= View().Ranks()[largest]
    {
      var left, right := position * 2 + 1, position * 2 + 2;
      largest := position;
      if left < |ids| {
        RankIsOrder(scores[left], ids[left], scores[largest], ids[largest]);
        if Outranks(scores[left], ids[left], scores[largest], ids[largest]) { largest := left; }
      }
      if right < |ids| {
        RankIsOrder(scores[right], ids[right], scores[largest], ids[largest]);
        if Outranks(scores[right], ids[right], scores[largest], ids[largest]) { largest := right; }
      }
      forall k | 0 < k < |ids| && Parent(k) == position ensures View().Ranks()[k] <= View().Ranks()[largest] {
        ChildrenOf(position, k);
      }
    }

    method SiftDown(start: nat)
      requires Indexed() && start < |ids| && (DefectDown(View().Ranks(), start) || DefectUp(View().Ranks(), start))
      modifies this`scores, this`ids, this`positions
      ensures Indexed() && |ids| == old(|ids|)
      ensures old(DefectDown(View().Ranks(), start)) ==> Valid()
      ensures !old(DefectDown(View().Ranks(), start)) ==> View() == old(View())
    {
      var position: nat := start;
      ghost var above := DefectDown(View().Ranks(), start);
      while true
        invariant position < |ids| == old(|ids|) && Indexed()
        invariant above ==> DefectDown(View().Ranks(), position)
        invariant !above ==> DefectUp(View().Ranks(), position) && View() == old(View())
        decreases |ids| - position
      {
        var largest := Largest(position);
        if largest == position { return; }
        SiftDownStep(View().Ranks(), position, largest);
        Swap(position, largest);
        position := largest;
      }
    }

    /** Where `job` sits, if exactly this handle is in the heap. */
    function SlotOf(job: JobId): (r: Option<nat>)
      reads this
      requires View().Indexed()
      ensures r.Some? <==> job in ids
      ensures r.Some? ==> r.value < |ids| && ids[r.value] == job
    {
      HeapFits(View());
      if job.index >= |positions| || positions[job.index] == ABSENT then None
      else
        var p := positions[job.index];
        if p < |ids| && ids[p] == job then Some(p) else None
    }

    /** A present job gets a new score; the heap holds otherwise what it held. */
    method Update(job: JobId, score: Score) returns (present: bool)
      requires Valid()
      modifies this
      ensures Valid() && present == (job in old(entries))
      ensures entries == if present then old(entries)[job := score] else old(entries)
      ensures !present ==> View() == old(View())
    {
      var slot := SlotOf(job);
      if slot == None { return false; }
      var position := slot.value;
      var previous := scores[position];
      RescoreDefect(View().Ranks(), position, Rank(score, job));
      RescoreEntries(View(), position, score);
      scores := scores[position := score];
      entries := entries[job := score];
      if score > previous {
        SiftUp(position);
      } else if score < previous {
        SiftDown(position);
      }
      return true;
    }

    /** Afterwards `job` is present once, at `score`. */
    method Push(job: JobId, score: Score)
      requires Valid() && OnePerIndex(View(), job) && job.index < ABSENT
      modifies this
      ensures Valid() && entries == old(entries)[job := score]
    {
      var present := Update(job, score);
      if !present { Append(job, score); }
    }

    method Append(job: JobId, score: Score)
      requires Valid() && job !in ids && OnePerIndex(View(), job) && job.index < ABSENT
      modifies this
      ensures Valid() && entries == old(entries)[job := score]
    {
      AppendDefect(View().Ranks(), Rank(score, job));
      AppendEntries(View(), job, score);
      var position := |ids|;
      var extra := if job.index < |positions| then 0 else job.index + 1 - |positions|;
      positions := positions + seq(extra, _ => ABSENT);
      scores := scores + [score];
      ids := ids + [job];
      positions := positions[job.index := position];
      entries := entries[job := score];
      SiftUp(position);
    }

    /** Takes the entry at `position` out and drops the last one into the hole. */
    method FillHole(position: nat)
      requires Indexed() && position < |ids|
      modifies this
      ensures Indexed() && entries == old(entries) - {old(ids[position])} && |ids| == old(|ids|) - 1
      ensures forall k :: 0 <= k < |ids| ==>
                View().Ranks()[k] == old(View().Ranks())[if k == position then |ids| else k]
    {
      ghost var goal := Removed(View(), position);
      RemoveShifts(View(), position);
      RemoveEntries(View(), goal, position);
      var last := |ids| - 1;
      var moved := ids[last];
      entries := entries - {ids[position]};
      positions := positions[ids[position].index := ABSENT];
      if position < last {
        scores, ids := scores[position := scores[last]], ids[position := ids[last]];
        positions := positions[moved.index := position];
      }
      scores, ids := scores[..last], ids[..last];
      assert View() == goal;
    }

    /** The entry at `pos` goes; all others stay. */
    method RemoveAt(position: nat)
      requires Valid() && position < |ids|
      modifies this
      ensures Valid() && entries == old(entries) - {old(ids[position])}
    {
      ghost var before := View().Ranks();
      FillHole(position);
      RemoveDefect(before, View().Ranks(), position);
      if position == |ids| { return; }
      // At most one of the two has anything to do.
      SiftDown(position);
      if Ordered(View().Ranks()) { OrderedHasNoDefect(View().Ranks(), position); }
      SiftUp(position);
    }

    method Remove(job: JobId) returns (present: bool)
      requires Valid()
      modifies this
      ensures Valid() && present == (job in old(entries)) && entries == old(entries) - {job}
    {
      var slot := SlotOf(job);
      if slot == None { return false; }
      RemoveAt(slot.value);
      return true;
    }

    /** Removes and returns the greatest entry. */
    method PopMax() returns (top: Option<(JobId, Score)>)
      requires Valid()
      modifies this
      ensures Valid()
      ensures top == None <==> old(entries) == map[]
      ensures top == None ==> entries == map[]
      ensures top.Some? ==>
                && top.value.0 in old(entries) && old(entries)[top.value.0] == top.value.1
                && (forall id :: id in old(entries) && id != top.value.0 ==>
                      Outranks(top.value.1, top.value.0, old(entries)[id], id))
                && entries == old(entries) - {top.value.0}
    {
      if |ids| == 0 { return None; }
      var job, score := ids[0], scores[0];
      EntryAt(View(), 0);
      forall id | id in entries && id != job ensures Outranks(score, job, entries[id], id) {
        var k :| 0 <= k < |ids| && ids[k] == id;
        EntryAt(View(), k);
        RootIsGreatest(View().Ranks(), k);
        RankIsOrder(score, job, scores[k], id);
      }
      RemoveAt(0);
      return Some((job, score));
    }
  }
}
