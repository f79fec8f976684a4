/** The journal the engine fills, the writer that drains it, and how both follow the protocol's steps. */
module Journals {
  import opened Domain
  import opened Codec
  import opened Replay
  import opened Records
  import opened Logs
  import opened Stores
  import opened WriteAhead

  /** A commit as the writer receives it: framed bytes. */
  datatype Batch = Batch(before: Bytes, frames: Bytes, acks: seq<nat>, snapshot: Option<nat>)

  const NO_BATCH: Batch := Batch([], [], [], None)

  ghost predicate Carries(hash: Hash, b: Batch, c: Commit) {
    b.before == Framed(hash, c.before) && b.frames == Framed(hash, c.frames) && b.acks == c.acks
        && b.snapshot == c.snapshot
  }

  lemma FramedNothing(hash: Hash, rs: seq<Record>)
    ensures Framed(hash, rs) == [] <==> rs == []
  {
    if rs != [] { FrameLength(hash, Payloads(rs)[|rs| - 1]); }
  }

  lemma FramedOneMore(hash: Hash, rs: seq<Record>, r: Record)
    ensures Framed(hash, rs) + Frame(hash, Payload(r)) == Framed(hash, rs + [r])
  {
    var ps := Payloads(rs);
    assert Payloads(rs + [r]) == ps + [Payload(r)] by { EachConcat(Payload, rs, |rs|, [r]); assert rs[..|rs|] == rs
        && ps[..|rs|] == ps; }
    FramesOneMore(hash, ps, Payload(r));
  }

  lemma EmptyBatch(hash: Hash, b: Batch, c: Commit)
    requires Carries(hash, b, c)
    ensures b == NO_BATCH <==> c == EMPTY
  {
    FramedNothing(hash, c.before);
    FramedNothing(hash, c.frames);
  }

  /** The bounded queue of batches handed over and not yet received. */
  class Channel {
    const hash: Hash
    const depth: nat
    var queue: seq<Batch>
    ghost var commits: seq<Commit>

    ghost predicate Valid()
      reads this
    {
      |queue| == |commits| && forall i :: 0 <= i < |queue| ==> Carries(hash, queue[i], commits[i])
    }

    constructor (hash: Hash, depth: nat)
      ensures Valid() && this.hash == hash && this.depth == depth && commits == []
    {
      this.hash, this.depth, queue, commits := hash, depth, [], [];
    }

    method TrySend(b: Batch, ghost c: Commit) returns (sent: bool)
      requires Valid() && Carries(hash, b, c)
      modifies this
      ensures Valid() && sent == (|old(commits)| < depth)
      ensures commits == if sent then old(commits) + [c] else old(commits)
    {
      sent := |queue| < depth;
      if sent { queue, commits := queue + [b], commits + [c]; }
    }

    method Receive() returns (b: Batch, ghost c: Commit)
      requires Valid() && queue != []
      modifies this
      ensures Valid() && Carries(hash, b, c) && [c] + commits == old(commits)
    {
      b, c := queue[0], commits[0];
      queue, commits := queue[1..], commits[1..];
    }
  }

  /** The engine's end: one batch per tick, kept for the next when the queue is full. */
  class Journal {
    const hash: Hash
    const rotateBytes: nat
    var pending: Batch
    var bytesSinceRotate: nat
    ghost var batch: Commit

    ghost predicate Valid()
      reads this
    {
      Carries(hash, pending, batch) && (batch.snapshot == None ==> batch.before == [])
    }

    constructor (hash: Hash, rotateBytes: nat)
      ensures Valid() && batch == EMPTY && this.hash == hash && this.rotateBytes == rotateBytes && bytesSinceRotate == 0
    {
      this.hash, this.rotateBytes := hash, rotateBytes;
      pending, bytesSinceRotate, batch := NO_BATCH, 0, EMPTY;
    }

    method Record(r: Record)
      requires Valid()
      modifies this
      ensures Valid() && batch == Recorded(old(batch), r)
      ensures bytesSinceRotate == old(bytesSinceRotate) + |pending.frames| - |old(pending).frames|
    {
      var before := |pending.frames|;
      FramedOneMore(hash, batch.frames, r);
      pending := pending.(frames := pending.frames + Frame(hash, Payload(r)));
      bytesSinceRotate := bytesSinceRotate + (|pending.frames| - before);
      batch := Recorded(batch, r);
    }

    /** Replies and dispatches alike wait for the batch they are deferred to. */
    method Defer(ack: nat)
      requires Valid()
      modifies this
      ensures Valid() && batch == Deferred(old(batch), ack) && bytesSinceRotate == old(bytesSinceRotate)
    {
      pending := pending.(acks := pending.acks + [ack]);
      batch := Deferred(batch, ack);
    }

    predicate WantsSnapshot()
      reads this
    {
      pending.snapshot == None && bytesSinceRotate >= rotateBytes
    }

    /** What was recorded so far belongs to the log being retired, what follows to the new one. Every record stays
        exactly when none was set aside for an earlier snapshot, as is so when none is pending. */
    method AttachSnapshot(snapshot: nat)
      requires Valid()
      modifies this
      ensures Valid() && batch == Attached(old(batch), snapshot) && bytesSinceRotate == 0
      ensures batch.before + batch.frames == old(batch).before + old(batch).frames <==> old(batch).before == []
      ensures old(batch).snapshot == None ==> old(batch).before == []
      ensures rotateBytes > 0 ==> !WantsSnapshot()
    {
      pending := pending.(before := pending.frames, frames := [], snapshot := Some(snapshot));
      batch := Attached(batch, snapshot);
      bytesSinceRotate := 0;
      FramedNothing(hash, []);
    }

    /** Hands the batch over if the queue has room; a refused batch stays, and the next tick's records join it. */
    method Commit(channel: Channel) returns (done: bool)
      requires Valid() && channel.Valid() && channel.hash == hash
      modifies this, channel
      ensures Valid() && channel.Valid() && bytesSinceRotate == old(bytesSinceRotate)
      ensures done <==> old(batch) == EMPTY || |old(channel.commits)| < channel.depth
      ensures if done && old(batch) != EMPTY
                then batch == EMPTY && channel.commits == old(channel.commits) + [old(batch)]
              else batch == old(batch) && channel.commits == old(channel.commits)
    {
      EmptyBatch(hash, pending, batch);
      if pending == NO_BATCH { return true; }
      done := channel.TrySend(pending, batch);
      if done {
        pending, batch := NO_BATCH, EMPTY;
        FramedNothing(hash, []);
      }
    }
  }

  // ---- the writer ----

  ghost function RunFrom(o: Options, s: State, actions: seq<Action>): Option<State> {
    if actions == [] then Some(s)
    else match RunFrom(o, s, actions[..|actions| - 1])
      case None => None
      case Some(t) => Next(o, t, actions[|actions| - 1])
  }

  /** The protocol can go from `s` to `t`. */
  ghost predicate Reaches(o: Options, s: State, t: State) {
    var reached := SomeRun(o, s, t);
    reached
  }

  ghost predicate SomeRun(o: Options, s: State, t: State) { exists actions :: RunFrom(o, s, actions) == Some(t) }

  lemma ReachesSelf(o: Options, s: State)
    ensures Reaches(o, s, s)
  {
    assert RunFrom(o, s, []) == Some(s);
  }

  lemma ReachesNext(o: Options, s: State, t: State, a: Action, u: State)
    requires Reaches(o, s, t) && Next(o, t, a) == Some(u)
    ensures Reaches(o, s, u)
  {
    var actions :| RunFrom(o, s, actions) == Some(t);
    var more := actions + [a];
    assert more[..|more| - 1] == actions && more[|more| - 1] == a;
    assert RunFrom(o, s, more) == Some(u);
  }

  /** Whatever is reachable from a reachable state is reachable. */
  lemma {:induction false} ReachesFromRun(o: Options, before: seq<Action>, s: State, actions: seq<Action>, t: State)
    requires Run(o, before) == Some(s) && RunFrom(o, s, actions) == Some(t)
    ensures Run(o, before + actions) == Some(t)
    decreases |actions|
  {
    if actions == [] {
      assert before + actions == before;
    } else {
      var front, last := actions[..|actions| - 1], actions[|actions| - 1];
      var mid := RunFrom(o, s, front).value;
      ReachesFromRun(o, before, s, front, mid);
      Then(o, before + front, mid, last, t);
      JoinLast(before, actions);
    }
  }

  lemma JoinLast(before: seq<Action>, actions: seq<Action>)
    requires actions != []
    ensures before + actions == before + actions[..|actions| - 1] + [actions[|actions| - 1]]
  {}

  /** The machine's state with the store where it now stands. */
  ghost function WithStore(t: State, store: Store, phase: Phase, start: nat): State
    reads store
  {
    t.(writer := Writer(store.dir, store.generation, phase), start := start)
  }

  lemma EffectReaches(o: Options, s: State, t: State, v: Writer)
    requires Reaches(o, s, t) && t.writer.phase != Idle && !t.writer.phase.Releasing? && t.writer.phase != Stuck
      && v == Work(o, t.writer)
    ensures Reaches(o, s, t.(writer := v, start := Advanced(t.writer.phase, t.start)))
  {
    ReachesNext(o, s, t, Effect, t.(writer := v, start := Advanced(t.writer.phase, t.start)));
  }

  /** The first half of a batch is written and synced under the present generation. */
  method PersistBefore(store: Store, policy: SyncPolicy, b: Batch, ghost o: Options, ghost s: State, ghost t: State,
                       ghost c: Commit)
    requires Carries(o.hash, b, c) && o.policy == policy && Reaches(o, s, t)
      && t.writer == Writer(store.dir, store.generation, Begin(c))
    modifies store
    ensures Reaches(o, s, WithStore(t, store, Retire(c), t.start))
  {
    FramedNothing(o.hash, c.before);
    if b.before != [] {
      store.Append(b.before);
      EffectReaches(o, s, t, Writer(store.dir, store.generation, BeforeWritten(c)));
      ghost var u := WithStore(t, store, BeforeWritten(c), t.start);
      store.Sync(policy);
      EffectReaches(o, s, u, Writer(store.dir, store.generation, Retire(c)));
    } else {
      EffectReaches(o, s, t, Writer(store.dir, store.generation, Retire(c)));
    }
  }

  /** The rotation, effect by effect; it fails only on a foreign file in the new log's place. */
  method PersistSnapshot(store: Store, b: Batch, ghost o: Options, ghost s: State, ghost t: State,
                         ghost c: Commit) returns (ok: bool)
    requires Carries(o.hash, b, c) && o.wholeOpen && Reaches(o, s, t)
      && t.writer == Writer(store.dir, store.generation, Retire(c))
    modifies store
    ensures Reaches(o, s, WithStore(t, store, if ok then Appending(c) else Idle, t.start))
  {
    if b.snapshot == None {
      EffectReaches(o, s, t, Writer(store.dir, store.generation, Appending(c)));
      return true;
    }
    RotationReaches(o, s, t, store.dir, store.generation, c);
    ok := store.Rotate(b.snapshot.value);
  }

  /** The effects of one rotation, one after the other. */
  lemma RotationReaches(o: Options, s: State, t: State, d: Directory, g: nat, c: Commit)
    requires Reaches(o, s, t) && o.wholeOpen && t.writer == Writer(d, g, Retire(c)) && c.snapshot.Some?
    ensures var filed := DirSynced(Renamed(d, g + 1, c.snapshot.value));
            var made := Created(filed, g + 1, |MAGIC|);
            if made == None then Reaches(o, s, t.(writer := Writer(filed, g, Idle)))
            else Reaches(o, s, t.(writer := Writer(LogRemoved(SnapshotRemoved(made.value, g), g), g + 1, Appending(c))))
  {
    var named := Renamed(d, g + 1, c.snapshot.value);
    var filed := DirSynced(named);
    EffectReaches(o, s, t, Writer(named, g, Named(c)));
    EffectReaches(o, s, t.(writer := Writer(named, g, Named(c))), Writer(filed, g, Opening(Some(c))));
    var made := Created(filed, g + 1, |MAGIC|);
    if made == None {
      EffectReaches(o, s, t.(writer := Writer(filed, g, Opening(Some(c)))), Writer(filed, g, Idle));
    } else {
      EffectReaches(o, s, t.(writer := Writer(filed, g, Opening(Some(c)))), Writer(made.value, g + 1, Opened(c, g)));
      SweepReaches(o, s, t.(writer := Writer(made.value, g + 1, Opened(c, g))), made.value, g, c);
    }
  }

  lemma SweepReaches(o: Options, s: State, t: State, d: Directory, g: nat, c: Commit)
    requires Reaches(o, s, t) && t.writer == Writer(d, g + 1, Opened(c, g))
    ensures Reaches(o, s, t.(writer := Writer(LogRemoved(SnapshotRemoved(d, g), g), g + 1, Appending(c))))
  {
    var swept := SnapshotRemoved(d, g);
    EffectReaches(o, s, t, Writer(swept, g + 1, Swept(c, g)));
    EffectReaches(o, s, t.(writer := Writer(swept, g + 1, Swept(c, g))),
        Writer(LogRemoved(swept, g), g + 1, Appending(c)));
  }

  /** The records behind the snapshot, appended and synced. */
  method PersistFrames(store: Store, policy: SyncPolicy, b: Batch, ghost o: Options, ghost s: State, ghost t: State,
                       ghost c: Commit)
    requires Carries(o.hash, b, c) && o.policy == policy && Reaches(o, s, t)
      && t.writer == Writer(store.dir, store.generation, Appending(c))
    modifies store
    ensures Reaches(o, s, WithStore(t, store, Releasing(c), t.start + Len(c)))
  {
    FramesReach(o, s, t, store.dir, store.generation, c);
    store.Append(b.frames);
    store.Sync(policy);
  }

  lemma FlushReaches(o: Options, s: State, t: State, d: Directory, g: nat, c: Commit)
    requires Reaches(o, s, t) && t.writer == Writer(d, g, Written(c))
    ensures Reaches(o, s, t.(writer := Writer(Flushed(d, g, o.policy), g, Releasing(c)), start := t.start + Len(c)))
  {
    EffectReaches(o, s, t, Writer(Flushed(d, g, o.policy), g, Releasing(c)));
  }

  lemma FramesReach(o: Options, s: State, t: State, d: Directory, g: nat, c: Commit)
    requires Reaches(o, s, t) && t.writer == Writer(d, g, Appending(c))
    ensures var after := Flushed(Appended(d, g, Framed(o.hash, c.frames)), g, o.policy);
            Reaches(o, s, t.(writer := Writer(after, g, Releasing(c)), start := t.start + Len(c)))
  {
    var written := Appended(d, g, Framed(o.hash, c.frames));
    EffectReaches(o, s, t, Writer(written, g, Written(c)));
    FlushReaches(o, s, t.(writer := Writer(written, g, Written(c))), written, g, c);
  }

  /** The first half of a batch, and the rotation. */
  method PersistRotation(store: Store, policy: SyncPolicy, b: Batch, ghost o: Options, ghost s: State, ghost t: State,
                         ghost c: Commit) returns (ok: bool)
    requires Carries(o.hash, b, c) && o.policy == policy && o.wholeOpen && Reaches(o, s, t)
    requires t.writer == Writer(store.dir, store.generation, Begin(c))
    modifies store
    ensures Reaches(o, s, WithStore(t, store, if ok then Appending(c) else Idle, t.start))
  {
    PersistBefore(store, policy, b, o, s, t, c);
    ghost var u := WithStore(t, store, Retire(c), t.start);
    ok := PersistSnapshot(store, b, o, s, u, c);
  }

  /** One batch: retire, rotate, append, sync. What it does to the disk is a run of the protocol's effects. */
  method Persist(store: Store, policy: SyncPolicy, b: Batch, ghost o: Options, ghost s: State, ghost t: State,
                 ghost c: Commit)
    returns (ok: bool, ghost u: State)
    requires Carries(o.hash, b, c) && o.policy == policy && o.wholeOpen && Reaches(o, s, t)
    requires t.writer == Writer(store.dir, store.generation, Begin(c))
    modifies store
    ensures Reaches(o, s, u)
      && u == WithStore(t, store, if ok then Releasing(c) else Idle, if ok then t.start + Len(c) else t.start)
  {
    ok := PersistRotation(store, policy, b, o, s, t, c);
    u := WithStore(t, store, if ok then Appending(c) else Idle, t.start);
    if ok {
      PersistFrames(store, policy, b, o, s, u, c);
      u := WithStore(t, store, Releasing(c), t.start + Len(c));
    }
  }

  lemma {:induction false} LatestConcat(a: seq<nat>, b: seq<nat>, least: nat)
    ensures Latest(a + b, least) == Latest(b, Latest(a, least))
    decreases |b|
  {
    var all := a + b;
    if b == [] {
      assert all == a;
    } else {
      assert all[..|all| - 1] == a + b[..|b| - 1];
      LatestConcat(a, b[..|b| - 1], least);
    }
  }

  /** The replies of those commits that were persisted, in order. */
  function Replies(commits: seq<Commit>, persisted: seq<bool>): seq<nat>
    requires |commits| == |persisted|
  {
    if commits == [] then []
    else
      var n := |commits| - 1;
      Replies(commits[..n], persisted[..n]) + if persisted[n] then commits[n].acks else []
  }

  lemma RepliesOneMore(commits: seq<Commit>, persisted: seq<bool>, c: Commit, ok: bool)
    requires |commits| == |persisted|
    ensures Replies(commits + [c], persisted + [ok]) == Replies(commits, persisted) + if ok then c.acks else []
  {
    var more, oks, n := commits + [c], persisted + [ok], |commits|;
    assert more[..n] == commits && oks[..n] == persisted;
  }

  /** The writer thread takes one batch: it is persisted, and only then are its replies released; a batch whose write
      failed is dropped with its replies. */
  method WriteNext(store: Store, policy: SyncPolicy, channel: Channel, ghost o: Options, ghost s: State, ghost t: State)
    returns (ok: bool, acks: seq<nat>, ghost u: State, ghost c: Commit)
    requires channel.Valid() && channel.queue != [] && channel.hash == o.hash && o.policy == policy && o.wholeOpen
    requires Reaches(o, s, t) && t.writer == Writer(store.dir, store.generation, Idle) && t.queue == channel.commits
    modifies store, channel
    ensures channel.Valid() && |channel.queue| < old(|channel.queue|) && [c] + channel.commits == old(channel.commits)
    ensures acks == if ok then c.acks else []
    ensures Reaches(o, s, u) && u.writer == Writer(store.dir, store.generation, Idle) && u.queue == channel.commits
    ensures u.emitted == t.emitted && u.pending == t.pending && u.released == Latest(acks, t.released)
  {
    ghost var queued := channel.commits;
    var b;
    b, c := channel.Receive();
    ghost var begun := t.(queue := channel.commits, writer := t.writer.(phase := Begin(c)));
    assert queued[0] == c && queued[1..] == channel.commits;
    ReachesNext(o, s, t, Action.Receive, begun);
    ok, u := Persist(store, policy, b, o, s, begun, c);
    acks := [];
    if ok {
      ghost var done := u.(released := Latest(c.acks, u.released), writer := u.writer.(phase := Idle));
      ReachesNext(o, s, u, Action.Release, done);
      u, acks := done, b.acks;
    }
  }

  lemma HandledOneMore(queue: seq<Commit>, handled: seq<Commit>, c: Commit, rest: seq<Commit>, left: seq<Commit>)
    requires queue == handled + rest && [c] + left == rest
    ensures queue == handled + [c] + left
  {}

  /** The writer thread over everything queued: what it releases is the replies of the batches it persisted, in order,
      and the whole is a run of the protocol. */
  method RunWriter(store: Store, policy: SyncPolicy, channel: Channel, ghost o: Options, ghost s: State)
    returns (released: seq<nat>, ghost u: State, ghost persisted: seq<bool>)
    requires channel.Valid() && channel.hash == o.hash && o.policy == policy && o.wholeOpen
    requires s.writer == Writer(store.dir, store.generation, Idle) && s.queue == channel.commits
    modifies store, channel
    ensures channel.Valid() && channel.commits == [] && Reaches(o, s, u)
    ensures u.writer == Writer(store.dir, store.generation, Idle) && u.queue == [] && u.emitted == s.emitted
      && u.pending == s.pending
    ensures |persisted| == |s.queue| && released == Replies(s.queue, persisted)
    ensures u.released == Latest(released, s.released)
  {
    released, u, persisted := [], s, [];
    ghost var handled: seq<Commit> := [];
    ReachesSelf(o, s);
    while channel.queue != []
      invariant channel.Valid() && Reaches(o, s, u) && u.writer == Writer(store.dir, store.generation, Idle)
      invariant u.queue == channel.commits && u.emitted == s.emitted && u.pending == s.pending
      invariant u.released == Latest(released, s.released)
      invariant |handled| == |persisted| && s.queue == handled + channel.commits
      invariant released == Replies(handled, persisted)
      decreases |channel.queue|
    {
      ghost var rest := channel.commits;
      ghost var c;
      var ok, acks;
      ok, acks, u, c := WriteNext(store, policy, channel, o, s, u);
      HandledOneMore(s.queue, handled, c, rest, channel.commits);
      RepliesOneMore(handled, persisted, c, ok);
      LatestConcat(released, acks, s.released);
      handled, persisted, released := handled + [c], persisted + [ok], released + acks;
    }
    assert handled + [] == handled;
  }

  /** Start-up after a crash: recover, then reopen the log. It succeeds exactly where recovery does, on the history
      that salvaged. */
  method Boot(hash: Hash, left: Directory, ghost o: Options,
              ghost s: State) returns (store: Option<Store>, ghost u: State)
    requires o.hash == hash && o.wholeOpen && s.writer.phase != Stuck && Survives(s.writer.disk, left)
    ensures Reaches(o, s, u) && (store.None? ==> u.writer.phase == Stuck)
    ensures store.Some? <==> RecoverOf(hash, left).Recovered?
    ensures store.Some? ==>
              && fresh(store.value) && u.writer == Writer(store.value.dir, store.value.generation, Idle)
              && u.emitted == Salvaged(s.emitted, RecoverOf(hash, left).snapshot, RecoverOf(hash, left).records)
              && u.pending == Attached(EMPTY, |u.emitted|) && u.queue == []
  {
    u := Recovering(o, s, left);
    ReachesSelf(o, s);
    ReachesNext(o, s, s, Crash(left), u);
    var r, mended := Recover(hash, left);
    if r == Refused { return None, u; }
    RecoveredOpens(hash, left);
    var opening := new Store(mended, r.generation);
    var ok := opening.Resume();
    ghost var t := u;
    u := WithStore(t, opening, if ok then Idle else Stuck, t.start);
    EffectReaches(o, s, t, u.writer);
    store := if ok then Some(opening) else None;
  }
}
