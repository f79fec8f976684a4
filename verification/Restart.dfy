/** From a crashed disk to a running engine: the protocol, the files and the replay put together. */
module Restarts {
  import opened Domain
  import opened Codec
  import opened Lifecycle
  import opened Transitions
  import opened Replay
  import opened Lives
  import opened Priority
  import opened Engines
  import opened Recoveries
  import opened Logs
  import Stores
  import WriteAhead
  import SnapshotCodec

  // ---- replay in two parts ----

  lemma {:induction false} ReplaySplit(base: Durable, a: seq<Record>, b: seq<Record>)
    requires Small(base.jobs) && ReplayFrom(base, a).Some?
    ensures ReplayFrom(base, a + b) == ReplayFrom(ReplayFrom(base, a).value, b)
    decreases |b|
  {
    if b == [] {
      assert a + b == a;
    } else {
      var front, last := b[..|b| - 1], b[|b| - 1];
      ReplaySplit(base, a, front);
      assert (a + b)[..|a + b| - 1] == a + front && (a + b)[|a + b| - 1] == last;
    }
  }

  lemma {:induction false} LawfulSplit(base: Durable, a: seq<Record>, b: seq<Record>)
    requires Small(base.jobs) && ReplayFrom(base, a).Some? && LawfulLog(base, a + b)
    ensures LawfulLog(ReplayFrom(base, a).value, b)
    decreases |b|
  {
    if b != [] {
      var front, last := b[..|b| - 1], b[|b| - 1];
      assert (a + b)[..|a + b| - 1] == a + front && (a + b)[|a + b| - 1] == last;
      LawfulSplit(base, a, front);
      ReplaySplit(base, a, front);
    }
  }

  // ---- replay does not look at eviction counters ----

  lemma TwinApply(s: Durable, t: Durable, r: Record)
    requires Small(s.jobs) && Small(t.jobs) && Bare(s) == Bare(t) && Apply(s, r).Some?
    ensures Apply(t, r).Some? && Bare(Apply(t, r).value) == Bare(Apply(s, r).value)
  {
    ApplyIgnoresCounters(s, r);
    ApplyIgnoresCounters(t, r);
  }

  lemma {:induction false} TwinReplay(s: Durable, t: Durable, log: seq<Record>)
    requires Small(s.jobs) && Small(t.jobs) && Bare(s) == Bare(t) && LawfulLog(s, log) && ReplayFrom(s, log).Some?
    ensures LawfulLog(t, log) && ReplayFrom(t, log).Some?
      && Bare(ReplayFrom(t, log).value) == Bare(ReplayFrom(s, log).value)
    decreases |log|
  {
    if log != [] {
      var front, last := log[..|log| - 1], log[|log| - 1];
      TwinReplay(s, t, front);
      FitsIgnoresCounters(ReplayFrom(s, front).value, ReplayFrom(t, front).value, last);
      TwinApply(ReplayFrom(s, front).value, ReplayFrom(t, front).value, last);
    }
  }

  // ---- the engine's own past ----

  /** The rest of a log leads from the arena its first part mirrors to the one the whole mirrors. */
  lemma MirrorsBetween(base: Durable, log: seq<Record>, live: Durable, rs: seq<Record>, all: seq<Record>,
                       live': Durable)
    requires Mirrors(base, log, live) && Mirrors(base, all, live') && all == log + rs && Small(live.jobs)
    ensures Recoveries.Continues(live.jobs, live.done, rs) && Bare(ReplayFrom(live, rs).value) == Bare(live')
  {
    ReplaySplit(base, log, rs);
    LawfulSplit(base, log, rs);
    TwinReplay(ReplayFrom(base, log).value, live, rs);
  }

  predicate Recalled(k: int) { k == k }

  /** The first `k` records `live` logged lead to `past`: what it was then, eviction counters aside, even if that was in
      the middle of a command. Sealed: `Recalled` in scope unfolds it. */
  ghost predicate StoodAt(live: Life, k: nat, past: Durable) {
    forall u: int :: Recalled(u) ==>
      && Small(live.base.jobs) && k <= |live.log| && ReplayFrom(live.base, live.log[..k]) == Some(past)
  }

  /** Every prefix of what an engine in good order has logged leads somewhere, and all of it to where it is. */
  lemma PastOf(live: Life, max: nat, k: nat) returns (past: Durable)
    requires Good(live, max) && k <= |live.log|
    ensures StoodAt(live, k, past) && Mirrors(live.base, live.log[..k], past)
    ensures k == |live.log| ==> Bare(past) == Bare(live.Durable())
  {
    GoodMirrors(live, max);
    PrefixReplays(live.base, live.log, k);
    if k < |live.log| { LawfulPrefix(live.base, live.log, k); } else { assert live.log[..k] == live.log; }
    past := ReplayFrom(live.base, live.log[..k]).value;
  }

  lemma SpansJoin(log: seq<Record>, front: seq<Record>, to: nat, rs: seq<Record>)
    requires front <= log && |front| <= to <= |log| && WriteAhead.Spans(rs, log, |front|, to)
    ensures log[..to] == front + rs
  {
    assert Shown(0);
  }

  /** The log from an earlier moment up to any record since leads from the arena of that moment to the one the log up to
      that record stands for, eviction counters aside. */
  lemma LogBetween(a: Life, live: Life, max: nat, k: nat, rs: seq<Record>) returns (past: Durable)
    requires Good(a, max) && Good(live, max) && a.base == live.base && a.log <= live.log && |a.log| <= k <= |live.log|
    requires WriteAhead.Spans(rs, live.log, |a.log|, k)
    ensures var between := Between(a, rs, past); StoodAt(live, k, past) && between
  {
    GoodMirrors(a, max);
    past := PastOf(live, max, k);
    SpansJoin(live.log, a.log, k, rs);
    MirrorsBetween(a.base, a.log, a.Durable(), rs, live.log[..k], past);
  }

  lemma GoodMirrors(l: Life, max: nat)
    requires Good(l, max)
    ensures Mirrors(l.base, l.log, l.Durable()) && Small(l.jobs)
  {
    GoodIsWhole(l, max);
  }

  /** The engine of some arena that equals `past` but for eviction counters, with its evictions in flight requeued and
      its Running jobs held. */
  ghost predicate Resumes(jobs: Jobs, held: seq<JobId>, past: Jobs) {
    exists r: Jobs :: Small(r) && Plain(r) == Plain(past)
      && jobs == AfterRequeue(r, IdsIn(r.slots, JobState.Preempted)) && held == IdsIn(r.slots, JobState.Running)
  }

  /** Sealed: `Unlocked` in scope unfolds it. */
  ghost predicate PicksUp(jobs: Jobs, held: seq<JobId>, past: Jobs) {
    forall k: int :: Unlocked(k) ==> Resumes(jobs, held, past)
  }

  /** What recovery finds is the history from its snapshot on, up to some point past everything released. */
  lemma FoundSlice(o: WriteAhead.Options, s: WriteAhead.State, left: Stores.Directory) returns (m: nat)
    requires var ok := WriteAhead.Ok(o, s); ok && WriteAhead.Survives(s.writer.disk, left)
    ensures Stores.RecoverOf(o.hash, left).Recovered? && s.released <= m <= |s.emitted|
    ensures var r := Stores.RecoverOf(o.hash, left);
            WriteAhead.Base(r.snapshot) <= m && WriteAhead.Spans(r.records, s.emitted, WriteAhead.Base(r.snapshot), m)
  {
    WriteAhead.CrashSurvived(o, s, left);
    var r := Stores.RecoverOf(o.hash, left);
    var found, base := WriteAhead.Salvaged(s.emitted, r.snapshot, r.records), WriteAhead.Base(r.snapshot);
    m := |found|;
    assert found == s.emitted[..m];
    assert r.records == found[base..];
  }

  lemma PickedUp(jobs: Jobs, held: seq<JobId>, r: Durable, past: Durable)
    requires Small(r.jobs) && Bare(r) == Bare(past)
    requires jobs == AfterRequeue(r.jobs, IdsIn(r.jobs.slots, JobState.Preempted))
      && held == IdsIn(r.jobs.slots, JobState.Running)
    ensures PicksUp(jobs, held, past.jobs)
  {}

  /** The log leads from the engine `a` was to `past`, eviction counters aside. */
  ghost predicate Between(a: Life, rs: seq<Record>, past: Durable) {
    Recoveries.Continues(a.jobs, a.books.done, rs) && Bare(ReplayFrom(a.Durable(), rs).value) == Bare(past)
  }

  ghost predicate Written(hash: Hash, file: Bytes, snap: Snapshot, a: Life, max: nat) {
    file == SnapshotCodec.EncodeSnapshot(hash, snap) && SnapshotCodec.Saveable(snap) && Saved(snap, a, max)
  }

  method RestartFromFile(hash: Hash, config: Config, retain: u64, window: u64, file: Bytes, records: seq<Record>,
                         at: u64, ghost snap: Snapshot, ghost a: Life, ghost past: Durable)
    returns (e: Engine)
    requires var written, between := Written(hash, file, snap, a, config.maxPreemptions), Between(a, records, past);
             written && between
    ensures fresh(e) && e.Valid() && PicksUp(e.jobs, e.held, past.jobs)
  {
    SnapshotCodec.SnapshotRoundTrip(hash, snap);
    var loaded := SnapshotCodec.DecodeSnapshot(hash, file);
    e := RecoverFromSnapshot(config, retain, window, loaded.s, records, at, a);
    PickedUp(e.jobs, e.held, ReplayFrom(a.Durable(), records).value, past);
  }

  method RestartFromLog(config: Config, retain: u64, window: u64, records: seq<Record>, at: u64, ghost past: Durable)
    returns (e: Engine)
    requires var mirrors := Mirrors(BLANK, records, past); mirrors
    ensures fresh(e) && e.Valid() && PicksUp(e.jobs, e.held, past.jobs)
  {
    e := RecoverFromLog(config, retain, window, records, at);
    PickedUp(e.jobs, e.held, ReplayFrom(BLANK, records).value, past);
  }

  /** What the disk must hold of the engine `live`, which had emitted `since` records before it started: the snapshot
      recovery picks is a file it wrote, at an earlier moment `a`; without one it started from nothing. */
  ghost predicate Kept(hash: Hash, r: Stores.Recovered, file: Bytes, snap: Snapshot, a: Life, live: Life, since: nat,
                       max: nat) {
    r.Recovered? ==>
      if r.snapshot.Some? then
        && Written(hash, file, snap, a, max) && a.base == live.base && a.log <= live.log
        && r.snapshot.value == since + |a.log|
      else since == 0 && live.base == BLANK
  }

  lemma WrittenGood(hash: Hash, file: Bytes, snap: Snapshot, a: Life, max: nat)
    requires Written(hash, file, snap, a, max)
    ensures Good(a, max)
  {
    SafeSnapshot(snap, a, max);
  }

  lemma SpansWithin(emitted: seq<Record>, since: nat, log: seq<Record>, from: nat, to: nat, rs: seq<Record>)
    requires WriteAhead.Spans(log, emitted, since, |emitted|) && WriteAhead.Spans(rs, emitted, from, to)
    requires since <= from <= to <= |emitted|
    ensures |log| == |emitted| - since && WriteAhead.Spans(rs, log, from - since, to - since)
  {
    assert Shown(0);
  }

  /** What was read after a snapshot leads from the engine that wrote it to the past it stands for. */
  lemma FoundAfterFile(a: Life, live: Life, since: nat, max: nat, emitted: seq<Record>, m: nat, rs: seq<Record>)
    returns (past: Durable)
    requires Good(a, max) && Good(live, max) && a.base == live.base && a.log <= live.log
    requires since + |a.log| <= m <= |emitted|
    requires WriteAhead.Spans(live.log, emitted, since, |emitted|)
      && WriteAhead.Spans(rs, emitted, since + |a.log|, m)
    ensures var between := Between(a, rs, past); StoodAt(live, m - since, past) && between
  {
    SpansWithin(emitted, since, live.log, since + |a.log|, m, rs);
    past := LogBetween(a, live, max, m - since, rs);
  }

  lemma SpansFront(emitted: seq<Record>, log: seq<Record>, to: nat, rs: seq<Record>)
    requires WriteAhead.Spans(log, emitted, 0, |emitted|) && WriteAhead.Spans(rs, emitted, 0, to)
    ensures to <= |log| && log[..to] == rs
  {
    assert Shown(0);
  }

  lemma FoundFromStart(live: Life, max: nat, emitted: seq<Record>, m: nat, rs: seq<Record>) returns (past: Durable)
    requires Good(live, max) && live.base == BLANK && m <= |emitted|
    requires WriteAhead.Spans(live.log, emitted, 0, |emitted|) && WriteAhead.Spans(rs, emitted, 0, m)
    ensures StoodAt(live, m, past) && Mirrors(BLANK, rs, past)
  {
    SpansFront(emitted, live.log, m, rs);
    past := PastOf(live, max, m);
  }

  /** The whole log leads to the present. */
  lemma PastIsPresent(live: Life, max: nat, since: nat, emitted: seq<Record>, past: Durable)
    requires Good(live, max) && WriteAhead.Spans(live.log, emitted, since, |emitted|) && since <= |emitted|
    requires StoodAt(live, |emitted| - since, past)
    ensures Plain(past.jobs) == Plain(live.jobs)
  {
    assert Recalled(0) && Shown(0);
    var whole := PastOf(live, max, |live.log|);
  }

  lemma PicksUpTwin(jobs: Jobs, held: seq<JobId>, past: Jobs, present: Jobs)
    requires PicksUp(jobs, held, past) && Plain(past) == Plain(present)
    ensures PicksUp(jobs, held, present)
  {
    assert Unlocked(0);
  }

  /** If nothing emitted was lost, picking up where the log leads is picking up where the crashed engine stood. */
  lemma PicksUpPresent(live: Life, max: nat, since: nat, emitted: seq<Record>, past: Durable, jobs: Jobs,
                       held: seq<JobId>)
    requires Good(live, max) && WriteAhead.Spans(live.log, emitted, since, |emitted|) && since <= |emitted|
    requires StoodAt(live, |emitted| - since, past) && PicksUp(jobs, held, past.jobs)
    ensures var picked := PicksUp(jobs, held, live.jobs); picked
  {
    PastIsPresent(live, max, since, emitted, past);
    PicksUpTwin(jobs, held, past.jobs, live.jobs);
  }

  /** What recovery read, and where it leads. */
  lemma Found(o: WriteAhead.Options, s: WriteAhead.State, left: Stores.Directory, r: Stores.Recovered, file: Bytes,
              snap: Snapshot, a: Life, live: Life, since: nat, max: nat)
    returns (m: nat, past: Durable)
    requires var ok, kept := WriteAhead.Ok(o, s), Kept(o.hash, r, file, snap, a, live, since, max); ok && kept
    requires Good(live, max) && since <= |s.emitted| && WriteAhead.Spans(live.log, s.emitted, since, |s.emitted|)
    requires WriteAhead.Survives(s.writer.disk, left) && r == Stores.RecoverOf(o.hash, left)
    ensures r.Recovered? && since <= m <= |s.emitted| && s.released <= m && StoodAt(live, m - since, past)
    ensures var written, between := Written(o.hash, file, snap, a, max), Between(a, r.records, past);
            r.snapshot.Some? ==> written && between
    ensures var mirrors := Mirrors(BLANK, r.records, past); r.snapshot == None ==> mirrors
  {
    m := FoundSlice(o, s, left);
    if r.snapshot.Some? {
      WrittenGood(o.hash, file, snap, a, max);
      past := FoundAfterFile(a, live, since, max, s.emitted, m, r.records);
    } else {
      past := FoundFromStart(live, max, s.emitted, m, r.records);
    }
  }

  /** Restarting after any crash of any run of the protocol. `live` is the engine that crashed, whatever it had done,
      and the snapshot file on disk is one it wrote at a moment it may be restored from. The engine that comes up is in
      good order and stands where the first `m` records lead, at least all that were released; a crash may have cut a
      command in two. */
  method Restart(hash: Hash, config: Config, retain: u64, window: u64, left: Stores.Directory, file: Bytes, at: u64,
                 ghost o: WriteAhead.Options, ghost s: WriteAhead.State, ghost since: nat, ghost live: Life,
                 ghost snap: Snapshot, ghost a: Life)
    returns (e: Engine, ghost m: nat, ghost past: Durable)
    requires var ok := WriteAhead.Ok(o, s); ok && o.hash == hash && WriteAhead.Survives(s.writer.disk, left)
    requires Good(live, config.maxPreemptions) && since <= |s.emitted|
      && WriteAhead.Spans(live.log, s.emitted, since, |s.emitted|)
    requires var kept := Kept(hash, Stores.RecoverOf(hash, left), file, snap, a, live, since, config.maxPreemptions);
             kept
    ensures fresh(e) && e.Valid() && since <= m <= |s.emitted| && s.released <= m
    ensures StoodAt(live, m - since, past) && PicksUp(e.jobs, e.held, past.jobs)
  {
    var r, mended := Stores.Recover(hash, left);
    m, past := Found(o, s, left, r, file, snap, a, live, since, config.maxPreemptions);
    if r.snapshot.Some? {
      e := RestartFromFile(hash, config, retain, window, file, r.records, at, snap, a, past);
    } else {
      e := RestartFromLog(config, retain, window, r.records, at, past);
    }
  }
}
