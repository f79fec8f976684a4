/** The write-ahead protocol: the engine's batches, the writer's steps, and crashes at any point between them. */
module WriteAhead {
  import opened Domain
  import opened Codec
  import opened Replay
  import opened Records
  import opened Logs
  import opened Stores

  // ---- batches ----

  /** One batch: records before and after the snapshot, the replies waiting for it, and the snapshot between.
      A reply, and a snapshot, is named by how many records had been emitted when it was made. */
  datatype Commit = Commit(before: seq<Record>, frames: seq<Record>, acks: seq<nat>, snapshot: Option<nat>)

  const EMPTY: Commit := Commit([], [], [], None)

  function Len(c: Commit): nat { |c.before| + |c.frames| }

  function Recorded(c: Commit, r: Record): Commit { c.(frames := c.frames + [r]) }

  function Deferred(c: Commit, ack: nat): Commit { c.(acks := c.acks + [ack]) }

  function Attached(c: Commit, snapshot: nat): Commit {
    c.(before := c.frames, frames := [], snapshot := Some(snapshot))
  }

  // ---- the writer, one durable effect at a time ----

  /** What the machine and the operator grant: the sync policy, the queue's depth, whether writes may fail,
      and whether a new log and its magic reach the disk together. */
  datatype Options = Options(hash: Hash, policy: SyncPolicy, depth: nat, faults: bool, wholeOpen: bool)

  datatype Phase =
    | Idle
    | Begin(commit: Commit)
    | BeforeWritten(commit: Commit)
    | Retire(commit: Commit)
    | Named(commit: Commit)
    | Opening(next: Option<Commit>)
    | Magic(next: Option<Commit>)
    | Opened(commit: Commit, retired: nat)
    | Swept(commit: Commit, retired: nat)
    | Appending(commit: Commit)
    | Written(commit: Commit)
    | Releasing(commit: Commit)
    | Stuck

  datatype Writer = Writer(disk: Directory, generation: nat, phase: Phase)

  /** The generation a log is being opened for: the next one in a rotation, the present one at start-up. */
  function Target(w: Writer, next: Option<Commit>): nat { if next == None then w.generation else w.generation + 1 }

  /** The phase behind an opened log. */
  function Behind(w: Writer,
                  next: Option<Commit>): Phase { if next == None then Idle else Opened(next.value, w.generation) }

  function Open(o: Options, w: Writer, next: Option<Commit>): Writer {
    var g := Target(w, next);
    match Created(w.disk, g, if o.wholeOpen then |MAGIC| else 0)
    case None => w.(phase := if next == None then Stuck else Idle)
    case Some(d) => if o.wholeOpen || d == w.disk then Writer(d, g, Behind(w, next))
        else Writer(d, w.generation, Magic(next))
  }

  /** The next durable effect of `resume`, `persist` and `rotate`. */
  function Work(o: Options, w: Writer): Writer {
    var d, g := w.disk, w.generation;
    match w.phase
    case Begin(c) =>
      if c.before == [] then w.(phase := Retire(c))
          else Writer(Appended(d, g, Framed(o.hash, c.before)), g, BeforeWritten(c))
    case BeforeWritten(c) => Writer(Flushed(d, g, o.policy), g, Retire(c))
    case Retire(c) => if c.snapshot == None then w.(phase := Appending(c))
        else Writer(Renamed(d, g + 1, c.snapshot.value), g, Named(c))
    case Named(c) => Writer(DirSynced(d), g, Opening(Some(c)))
    case Opening(next) => Open(o, w, next)
    case Magic(next) => Writer(Flushed(d, Target(w, next), Full), Target(w, next), Behind(w, next))
    case Opened(c, retired) => Writer(SnapshotRemoved(d, retired), g, Swept(c, retired))
    case Swept(c, retired) => Writer(LogRemoved(d, retired), g, Appending(c))
    case Appending(c) => Writer(Appended(d, g, Framed(o.hash, c.frames)), g, Written(c))
    case Written(c) => Writer(Flushed(d, g, o.policy), g, Releasing(c))
    case Idle => w
    case Releasing(_) => w
    case Stuck => w
  }

  // ---- what a crash may leave ----

  /** The file's synced bytes survive, and any part of what was written behind them. */
  ghost predicate Cut(p: Pair, left: Pair) {
    && left.snapshot == p.snapshot
    && match p.log
       case None => left.log == None
       case Some(f) =>
         && left.log.Some?
         && f.synced <= |left.log.value.bytes| <= |f.bytes|
         && left.log.value.bytes == f.bytes[..|left.log.value.bytes|]
         && left.log.value.synced == |left.log.value.bytes|
  }

  /** The generations whose names are on disk. */
  ghost function Firm(d: Directory): set<nat> {
    if d.loose == None then d.files.Keys else d.files.Keys - {d.loose.value}
  }

  /** `left` may be what a crash leaves of `d`: the highest firm generation stays, a loose one may or may not,
      nothing newer appears, and what is older does not matter. */
  ghost predicate Survives(d: Directory, left: Directory) {
    var g := Highest(Firm(d));
    && left.loose == None
    && (g in d.files ==> g in left.files)
    && Cut(PairOf(d, g), PairOf(left, g))
    && forall h :: h in left.files && h > g ==> d.loose == Some(h) && h in d.files && Cut(PairOf(d, h), PairOf(left, h))
  }

  function Base(snapshot: Option<nat>): nat { if snapshot == None then 0 else snapshot.value }

  /** The history a recovery stands for: what the snapshot holds, then the log. */
  function Salvaged(emitted: seq<Record>, snapshot: Option<nat>, records: seq<Record>): seq<Record> {
    (if Base(snapshot) <= |emitted| then emitted[..Base(snapshot)] else emitted) + records
  }

  // ---- the whole protocol ----

  /** `start` counts the records of the batches that have been written and synced. */
  datatype State = State(emitted: seq<Record>, released: nat, pending: Commit, queue: seq<Commit>, writer: Writer,
                         start: nat)

  datatype Action =
    | Emit(record: Record) | Defer | Attach | Send | Receive | Effect | Release | Fail | Crash(left: Directory)

  function Latest(acks: seq<nat>, least: nat): (r: nat)
    ensures least <= r && (forall t :: t in acks ==> t <= r) && (r == least || r in acks)
  {
    if acks == [] then least
    else
      var rest := Latest(acks[..|acks| - 1], least);
      assert acks == acks[..|acks| - 1] + [acks[|acks| - 1]];
      if rest <= acks[|acks| - 1] then acks[|acks| - 1] else rest
  }

  /** Starting over on what recovery found; a fresh snapshot is queued at once. */
  function Restarted(emitted: seq<Record>, released: nat, d: Directory, g: nat): State {
    State(emitted, released, Attached(EMPTY, |emitted|), [], Writer(d, g, Opening(None)), |emitted|)
  }

  const FIRST: State := Restarted([], 0, BARE, 0)

  ghost function Recovering(o: Options, s: State, left: Directory): State {
    match RecoverOf(o.hash, left)
    case Refused => s.(writer := Writer(left, s.writer.generation, Stuck))
    case Recovered(g, snapshot, rs, torn) => Restarted(Salvaged(s.emitted, snapshot, rs), s.released,
        CutBack(left, g, torn), g)
  }

  /** One action, where it is possible. */
  ghost function Next(o: Options, s: State, a: Action): Option<State> {
    if s.writer.phase == Stuck then None
    else
      var c := s.pending;
      var phase := s.writer.phase;
      match a
      case Emit(r) => if Printable([r]) then Some(s.(emitted := s.emitted + [r], pending := Recorded(c, r))) else None
      case Defer => Some(s.(pending := Deferred(c, |s.emitted|)))
      case Attach => if c.snapshot == None then Some(s.(pending := Attached(c, |s.emitted|))) else None
      case Send => if c != EMPTY && |s.queue| < o.depth then Some(s.(pending := EMPTY, queue := s.queue + [c]))
          else None
      case Receive =>
        if phase == Idle && s.queue != []
            then Some(s.(queue := s.queue[1..], writer := s.writer.(phase := Begin(s.queue[0])))) else None
      case Effect =>
        if phase == Idle || phase.Releasing? then None
        else Some(s.(writer := Work(o, s.writer),
                     start := if phase.Written? then s.start + Len(phase.commit) else s.start))
      case Release =>
        if phase.Releasing? then Some(s.(released := Latest(phase.commit.acks, s.released),
            writer := s.writer.(phase := Idle))) else None
      case Fail => if o.faults && phase != Idle && !phase.Releasing? && phase != Opening(None) && phase != Magic(None)
          then Some(s.(writer := s.writer.(phase := Idle))) else None
      case Crash(left) => if Survives(s.writer.disk, left) then Some(Recovering(o, s, left)) else None
  }

  ghost function Run(o: Options, actions: seq<Action>): Option<State> {
    if actions == [] then Some(FIRST)
    else match Run(o, actions[..|actions| - 1])
      case None => None
      case Some(s) => Next(o, s, actions[|actions| - 1])
  }

  /** Recovery succeeds, on a prefix of the history that holds everything released. */
  ghost predicate Recovers(o: Options, s: State, left: Directory) {
    match RecoverOf(o.hash, left)
    case Refused => false
    case Recovered(g, snapshot, rs, torn) =>
      var found := Salvaged(s.emitted, snapshot, rs);
      Base(snapshot) <= |s.emitted| && found <= s.emitted && s.released <= |found|
  }

  ghost predicate Safe(o: Options, s: State) { forall left :: Survives(s.writer.disk, left) ==> Recovers(o, s, left) }

  /** No run, through any number of crashes, reaches a state a crash could not be survived in. */
  ghost predicate AlwaysSafe(o: Options) {
    forall actions :: Run(o, actions).Some? ==> Safe(o, Run(o, actions).value)
  }

  // ---- the invariant ----

  /** `rs` is the records from `from` to `to`. */
  ghost predicate Spans(rs: seq<Record>, emitted: seq<Record>, from: nat, to: nat) {
    forall k: int :: Shown(k) ==>
      from <= to <= |emitted| && |rs| == to - from && forall i :: 0 <= i < |rs| ==> rs[i] == emitted[from + i]
  }

  predicate Typed(k: int) { k == k }

  ghost predicate Printable(rs: seq<Record>) { forall k: int :: Typed(k) ==> AllLoggable(rs) }

  predicate Inked(k: int) { k == k }

  /** The file holds the records from `base` to `end`, those up to `safe` on disk. */
  ghost predicate LogHolds(hash: Hash, f: LogFile, emitted: seq<Record>, base: nat, end: nat, safe: nat) {
    forall k: int :: Inked(k) ==>
      base <= safe <= end <= |emitted| && f.bytes == LogImage(hash, emitted[base..end])
          && f.synced == |LogImage(hash, emitted[base..safe])|
  }

  /** `c` is the records from `from` on, and its replies wait for nothing beyond it. */
  ghost predicate Halves(c: Commit, emitted: seq<Record>, from: nat) {
    && from + Len(c) <= |emitted|
    && Spans(c.before, emitted, from, from + |c.before|) && Spans(c.frames, emitted, from + |c.before|, from + Len(c))
    && forall t :: t in c.acks ==> t <= from + Len(c)
  }

  /** And its snapshot stands between its halves. */
  ghost predicate Fits(c: Commit, emitted: seq<Record>, from: nat) {
    match c.snapshot
    case None => Halves(c, emitted, from) && c.before == []
    case Some(k) => Halves(c, emitted, from) && k == from + |c.before|
  }

  /** Batches in order, without gap or overlap, from `from` to `to`. */
  ghost predicate Covers(cs: seq<Commit>, emitted: seq<Record>, from: nat, to: nat) {
    if cs == [] then from == to else Fits(cs[0], emitted, from) && Covers(cs[1..], emitted, from + Len(cs[0]), to)
  }

  /** Snapshot and log together hold the first `end` records, the first `safe` of them on disk. */
  ghost predicate OnDisk(hash: Hash, p: Pair, emitted: seq<Record>, end: nat, safe: nat) {
    match p.log
    case None => Base(p.snapshot) == safe == end <= |emitted|
    case Some(f) =>
      Base(p.snapshot) <= safe <= end <= |emitted| && LogHolds(hash, f, emitted, Base(p.snapshot), end, safe)
  }

  predicate Placed(k: int) { k == k }

  /** `g` is the generation recovery would pick, and it holds the first `end` records. Sealed: `Placed` unfolds it. */
  ghost predicate Settled(hash: Hash, d: Directory, g: nat, emitted: seq<Record>, end: nat, safe: nat) {
    forall k: int :: Placed(k) ==>
        d.loose == None && IsHighest(d.files.Keys, g) && OnDisk(hash, PairOf(d, g), emitted, end, safe)
  }

  /** Its log is open and everything in it is on disk. */
  ghost predicate Tight(hash: Hash, d: Directory, g: nat, emitted: seq<Record>, end: nat) {
    Settled(hash, d, g, emitted, end, end) && PairOf(d, g).log.Some?
  }

  /** A snapshot renamed into place beside the generation it will replace. */
  ghost predicate Beside(hash: Hash, d: Directory, g: nat, emitted: seq<Record>, end: nat) {
    forall k: int :: Placed(k) ==>
      && d.loose == Some(g + 1) && g + 1 in d.files && d.files[g + 1] == Pair(Some(end), None)
      && IsHighest(Firm(d), g) && OnDisk(hash, PairOf(d, g), emitted, end, end)
  }

  /** The batch the writer has not finished. */
  function Unfinished(phase: Phase): Commit {
    match phase
    case Idle => EMPTY
    case Releasing(_) => EMPTY
    case Stuck => EMPTY
    case Opening(next) => if next == None then EMPTY else next.value
    case Magic(next) => if next == None then EMPTY else next.value
    case _ => phase.commit
  }

  /** The generation recovery would pick, apart from a snapshot just renamed. */
  function At(w: Writer): nat { if w.phase.Opening? then Target(w, w.phase.next) else w.generation }

  /** How far the files reach; the batch at hand begins at `start`. */
  function Reach(phase: Phase, start: nat): nat {
    if phase.Begin? then start
    else if phase.Written? then start + Len(phase.commit)
    else start + |Unfinished(phase).before|
  }

  /** How far they are on disk. */
  function Kept(phase: Phase, start: nat): nat {
    if phase.Begin? || phase.BeforeWritten? then start else start + |Unfinished(phase).before|
  }

  /** What each phase knows beside that. */
  ghost predicate Shaped(w: Writer, start: nat) {
    var log := PairOf(w.disk, At(w)).log;
    match w.phase
    case Opening(next) => next.Some? ==> next.value.snapshot.Some? && log == None
    case Named(c) => c.snapshot.Some?
    case Opened(_, retired) => retired < w.generation && log.Some?
    case Swept(_, retired) => retired < w.generation && log.Some?
    case Releasing(c) => log.Some? && forall t :: t in c.acks ==> t <= start
    case Magic(_) => false
    case Stuck => false
    case _ => log.Some?
  }

  predicate Entered(k: int) { k == k }

  /** How the disk stands in each phase. Sealed: `Entered` in scope unfolds it. */
  ghost predicate InPhase(o: Options, w: Writer, emitted: seq<Record>, start: nat) {
    forall k: int :: Entered(k) ==> Standing(o, w, emitted, start)
  }

  ghost predicate Standing(o: Options, w: Writer, emitted: seq<Record>, start: nat) {
    var batch := Fits(Unfinished(w.phase), emitted, start);
    var beside := Beside(o.hash, w.disk, w.generation, emitted, Reach(w.phase, start));
    var settled := Settled(o.hash, w.disk, At(w), emitted, Reach(w.phase, start), Kept(w.phase, start));
    Shaped(w, start) && batch && if w.phase.Named? then beside else settled
  }

  ghost predicate Waiting(s: State) {
    Len(s.pending) <= |s.emitted| &&
    var batch := Fits(s.pending, s.emitted, |s.emitted| - Len(s.pending));
    batch && Covers(s.queue, s.emitted, s.start + Len(Unfinished(s.writer.phase)), |s.emitted| - Len(s.pending))
  }

  ghost predicate Ok(o: Options, s: State) {
    var printable := Printable(s.emitted);
    var standing := InPhase(o, s.writer, s.emitted, s.start);
    printable && standing && s.released <= s.start && Waiting(s)
  }

  /** What the theorem asks of the machine and the operator. */
  predicate Trusted(o: Options) { o.policy != NoSync && !o.faults && o.wholeOpen }

  // ---- recovery from what a crash leaves ----

  lemma HighestIsUnique(gs: set<nat>, a: nat, b: nat)
    requires IsHighest(gs, a) && IsHighest(gs, b)
    ensures a == b
  {}

  /** A pair cut by a crash reads back as a prefix with everything synced, and is mended to exactly that prefix. */
  lemma PairSurvives(hash: Hash, p: Pair, left: Pair, emitted: seq<Record>, end: nat, safe: nat) returns (k: nat)
    requires Printable(emitted) && OnDisk(hash, p, emitted, end, safe) && Cut(p, left)
    ensures safe <= k <= end && ReadPair(hash, left).Parsed?
    ensures Salvaged(emitted, left.snapshot, ReadPair(hash, left).records) == emitted[..k]
    ensures left.log.None? ==> OnDisk(hash, left, emitted, k, k)
    ensures left.log.Some? ==>
      var kept := Mended(left.log.value.bytes, ReadPair(hash, left).tornAt);
      && OnDisk(hash, left.(log := Some(LogFile(kept, |kept|))), emitted, k, k)
      && (ReadPair(hash, left).tornAt == None ==> kept == left.log.value.bytes)
  {
    var base := Base(p.snapshot);
    assert Typed(0) && Inked(0);
    match p.log
    case None =>
      k := base;
      assert emitted[..base] + [] == emitted[..base];
    case Some(f) =>
      var rs := emitted[base..end];
      Slices(emitted, base, safe, end);
      var n := TornLog(hash, rs, safe - base, left.log.value.bytes);
      k := base + n;
      Slices(emitted, base, k, end);
  }

  lemma Slices(emitted: seq<Record>, base: nat, k: nat, end: nat)
    requires base <= k <= end <= |emitted|
    ensures emitted[base..end][..k - base] == emitted[base..k] && emitted[..base] + emitted[base..k] == emitted[..k]
  {}

  /** The generation recovery picks is the highest firm one, or the loose one if its name survived. */
  lemma SurvivorTop(d: Directory, left: Directory, g: nat)
    requires Survives(d, left) && IsHighest(Firm(d), g)
    ensures Cut(PairOf(d, g), PairOf(left, g))
    ensures var h := Highest(left.files.Keys);
            h == g || (d.loose == Some(h) && h in d.files && Cut(PairOf(d, h), PairOf(left, h)))
  {
    HighestIsUnique(Firm(d), g, Highest(Firm(d)));
  }

  /** Recovery from a generation that holds the first `end` records. */
  lemma Comeback(o: Options, s: State, left: Directory, p: Pair, end: nat, safe: nat)
    requires Printable(s.emitted) && OnDisk(o.hash, p, s.emitted, end, safe) && s.released <= safe && left.loose == None
    requires Cut(p, PairOf(left, Highest(left.files.Keys)))
    ensures Recovers(o, s, left) && Ok(o, Recovering(o, s, left)) && Recovering(o, s, left).emitted <= s.emitted
  {
    var g := Highest(left.files.Keys);
    var q := PairOf(left, g);
    var k := PairSurvives(o.hash, p, q, s.emitted, end, safe);
    Restarts(o, s, left, g, q, RecoverOf(o.hash, left), k);
  }

  lemma Restarts(o: Options, s: State, left: Directory, g: nat, q: Pair, r: Recovered, k: nat)
    requires Printable(s.emitted) && k <= |s.emitted| && s.released <= k && left.loose == None
    requires IsHighest(left.files.Keys, g) && q == PairOf(left, g)
    requires r.Recovered? && r.generation == g && Salvaged(s.emitted, r.snapshot, r.records) == s.emitted[..k]
    requires q.log.None? ==> OnDisk(o.hash, q, s.emitted, k, k)
    requires q.log.Some? ==>
      var kept := Mended(q.log.value.bytes, r.tornAt);
      && OnDisk(o.hash, q.(log := Some(LogFile(kept, |kept|))), s.emitted, k, k)
      && (r.tornAt == None ==> kept == q.log.value.bytes && q.log.value.synced == |kept|)
    ensures Ok(o, Restarted(s.emitted[..k], s.released, CutBack(left, g, r.tornAt), g))
  {
    var d := CutBack(left, g, r.tornAt);
    var p := PairOf(d, g);
    assert OnDisk(o.hash, p, s.emitted, k, k);
    Shrunk(o.hash, p, s.emitted, k);
    PrintableCut(s.emitted, k);
    assert IsHighest(d.files.Keys, g);
    RestartOk(o, s.emitted[..k], s.released, d, g);
  }

  lemma RestartOk(o: Options, emitted: seq<Record>, released: nat, d: Directory, g: nat)
    requires Printable(emitted) && released <= |emitted| && d.loose == None && IsHighest(d.files.Keys, g)
    requires OnDisk(o.hash, PairOf(d, g), emitted, |emitted|, |emitted|)
    ensures Ok(o, Restarted(emitted, released, d, g))
  {
    var n := |emitted|;
    EmptyFits(emitted, n);
    AttachedFits(EMPTY, emitted, n);
    assert Settled(o.hash, d, g, emitted, n, n);
    assert Standing(o, Writer(d, g, Opening(None)), emitted, n);
  }

  lemma PrintableCut(rs: seq<Record>, k: nat)
    requires Printable(rs) && k <= |rs|
    ensures Printable(rs[..k])
  {
    assert Typed(0);
  }

  lemma Shrunk(hash: Hash, p: Pair, emitted: seq<Record>, k: nat)
    requires OnDisk(hash, p, emitted, k, k)
    ensures OnDisk(hash, p, emitted[..k], k, k)
  {
    assert Inked(0);
    assert emitted[..k][Base(p.snapshot)..k] == emitted[Base(p.snapshot)..k];
  }

  /** The pair holds the first `start` records on disk, whatever it holds beyond. */
  ghost predicate Held(hash: Hash, p: Pair, emitted: seq<Record>, start: nat) {
    exists end, safe :: start <= safe && OnDisk(hash, p, emitted, end, safe)
  }

  lemma HeldBy(hash: Hash, p: Pair, emitted: seq<Record>, start: nat, end: nat, safe: nat)
    requires start <= safe && OnDisk(hash, p, emitted, end, safe)
    ensures Held(hash, p, emitted, start)
  {}

  /** In every phase, every generation recovery might pick holds all that is finished. */
  lemma PhaseHolds(o: Options, w: Writer, emitted: seq<Record>, start: nat)
    requires InPhase(o, w, emitted, start)
    ensures Held(o.hash, PairOf(w.disk, Highest(Firm(w.disk))), emitted, start)
    ensures w.disk.loose.Some? ==> Held(o.hash, PairOf(w.disk, w.disk.loose.value), emitted, start)
  {
    assert Placed(0);
    assert Entered(0);
    var d, end, safe := w.disk, Reach(w.phase, start), Kept(w.phase, start);
    HighestIsUnique(Firm(d), Highest(Firm(d)), At(w));
    HeldBy(o.hash, PairOf(d, At(w)), emitted, start, end, safe);
    if w.phase.Named? { HeldBy(o.hash, PairOf(d, w.generation + 1), emitted, start, end, end); }
  }

  /** Whatever a crash leaves, recovery restores a prefix of the history holding all that was released,
      and the protocol goes on from there. */
  lemma CrashSurvived(o: Options, s: State, left: Directory)
    requires Ok(o, s) && Survives(s.writer.disk, left)
    ensures Recovers(o, s, left) && Ok(o, Recovering(o, s, left)) && Recovering(o, s, left).emitted <= s.emitted
  {
    var d := s.writer.disk;
    PhaseHolds(o, s.writer, s.emitted, s.start);
    SurvivorTop(d, left, Highest(Firm(d)));
    var p := PairOf(d, Highest(left.files.Keys));
    var end, safe :| s.start <= safe && OnDisk(o.hash, p, s.emitted, end, safe);
    Comeback(o, s, left, p, end, safe);
  }

  // ---- the engine's actions ----

  lemma SpansGrown(rs: seq<Record>, emitted: seq<Record>, from: nat, to: nat, r: Record)
    requires Spans(rs, emitted, from, to)
    ensures Spans(rs, emitted + [r], from, to)
  {
    assert Shown(0);
  }

  lemma FitsGrown(c: Commit, emitted: seq<Record>, from: nat, r: Record)
    requires Fits(c, emitted, from)
    ensures Fits(c, emitted + [r], from)
  {
    SpansGrown(c.before, emitted, from, from + |c.before|, r);
    SpansGrown(c.frames, emitted, from + |c.before|, from + Len(c), r);
  }

  lemma {:induction false} CoversGrown(cs: seq<Commit>, emitted: seq<Record>, from: nat, to: nat, r: Record)
    requires Covers(cs, emitted, from, to)
    ensures Covers(cs, emitted + [r], from, to)
    decreases |cs|
  {
    if cs != [] {
      FitsGrown(cs[0], emitted, from, r);
      CoversGrown(cs[1..], emitted, from + Len(cs[0]), to, r);
    }
  }

  lemma OnDiskGrown(hash: Hash, p: Pair, emitted: seq<Record>, end: nat, safe: nat, r: Record)
    requires OnDisk(hash, p, emitted, end, safe)
    ensures OnDisk(hash, p, emitted + [r], end, safe)
  {
    assert Inked(0);
    var base, more := Base(p.snapshot), emitted + [r];
    assert more[base..end] == emitted[base..end] && more[base..safe] == emitted[base..safe];
  }

  lemma PhaseGrown(o: Options, w: Writer, emitted: seq<Record>, start: nat, r: Record)
    requires InPhase(o, w, emitted, start)
    ensures InPhase(o, w, emitted + [r], start)
  {
    assert Placed(0);
    assert Entered(0);
    FitsGrown(Unfinished(w.phase), emitted, start, r);
    OnDiskGrown(o.hash, PairOf(w.disk, At(w)), emitted, Reach(w.phase, start), Kept(w.phase, start), r);
  }

  lemma EmitKeeps(o: Options, s: State, r: Record)
    requires var ok := Ok(o, s); ok && Printable([r])
    ensures var kept := Ok(o, s.(emitted := s.emitted + [r], pending := Recorded(s.pending, r))); kept
  {
    var c := s.pending;
    var at := |s.emitted| - Len(c);
    PrintableGrown(s.emitted, r);
    PhaseGrown(o, s.writer, s.emitted, s.start, r);
    CoversGrown(s.queue, s.emitted, s.start + Len(Unfinished(s.writer.phase)), at, r);
    RecordedFits(c, s.emitted, at, r);
  }

  lemma PrintableGrown(rs: seq<Record>, r: Record)
    requires Printable(rs) && Printable([r])
    ensures Printable(rs + [r])
  {
    assert Typed(0);
    assert [r][0] == r;
  }

  lemma RecordedFits(c: Commit, emitted: seq<Record>, at: nat, r: Record)
    requires Fits(c, emitted, at) && at + Len(c) == |emitted|
    ensures Fits(Recorded(c, r), emitted + [r], at)
  {
    SpansGrown(c.before, emitted, at, at + |c.before|, r);
    SpansMore(c.frames, emitted, at + |c.before|, r);
  }

  lemma SpansMore(rs: seq<Record>, emitted: seq<Record>, from: nat, r: Record)
    requires Spans(rs, emitted, from, |emitted|)
    ensures Spans(rs + [r], emitted + [r], from, |emitted| + 1)
  {
    assert Shown(0);
  }

  lemma SpansNothing(emitted: seq<Record>, from: nat)
    requires from <= |emitted|
    ensures Spans([], emitted, from, from)
  {}

  lemma SpansSlice(rs: seq<Record>, emitted: seq<Record>, from: nat, to: nat)
    requires Spans(rs, emitted, from, to)
    ensures from <= to <= |emitted| && rs == emitted[from..to]
  {
    assert Shown(0);
  }

  lemma EmptyFits(emitted: seq<Record>, from: nat)
    requires from <= |emitted|
    ensures Fits(EMPTY, emitted, from)
  {
    SpansNothing(emitted, from);
  }

  lemma AttachedFits(c: Commit, emitted: seq<Record>, at: nat)
    requires Fits(c, emitted, at) && at + Len(c) == |emitted| && c.snapshot == None
    ensures Fits(Attached(c, |emitted|), emitted, at)
  {
    SpansNothing(emitted, |emitted|);
  }

  lemma {:induction false} CoversOneMore(cs: seq<Commit>, c: Commit, emitted: seq<Record>, from: nat, to: nat)
    requires Covers(cs, emitted, from, to) && Fits(c, emitted, to)
    ensures Covers(cs + [c], emitted, from, to + Len(c))
    decreases |cs|
  {
    if cs == [] {
      assert (cs + [c])[1..] == [];
    } else {
      assert (cs + [c])[1..] == cs[1..] + [c];
      CoversOneMore(cs[1..], c, emitted, from + Len(cs[0]), to);
    }
  }

  lemma SendKeeps(o: Options, s: State)
    requires var ok := Ok(o, s); ok
    ensures var kept := Ok(o, s.(pending := EMPTY, queue := s.queue + [s.pending])); kept
  {
    var at := |s.emitted| - Len(s.pending);
    CoversOneMore(s.queue, s.pending, s.emitted, s.start + Len(Unfinished(s.writer.phase)), at);
    Sent(o, s, s.queue + [s.pending]);
  }

  lemma Sent(o: Options, s: State, queue: seq<Commit>)
    requires Ok(o, s) && Covers(queue, s.emitted, s.start + Len(Unfinished(s.writer.phase)), |s.emitted|)
    ensures Ok(o, s.(pending := EMPTY, queue := queue))
  {
    EmptyFits(s.emitted, |s.emitted|);
  }

  // ---- the writer's actions ----

  /** Appending the next records to a log that holds the ones before. */
  lemma AppendHolds(hash: Hash, p: Pair, emitted: seq<Record>, mid: nat, end: nat, rs: seq<Record>)
    requires OnDisk(hash, p, emitted, mid, mid) && p.log.Some? && Spans(rs, emitted, mid, end)
    ensures OnDisk(hash, p.(log := Some(p.log.value.(bytes := p.log.value.bytes + Framed(hash, rs)))), emitted, end,
                   mid)
  {
    assert Inked(0);
    var base := Base(p.snapshot);
    SpansSlice(rs, emitted, mid, end);
    LogImageGrows(hash, emitted[base..mid], rs);
    assert emitted[base..mid] + rs == emitted[base..end];
  }

  lemma AppendKeeps(hash: Hash, d: Directory, g: nat, emitted: seq<Record>, mid: nat, end: nat, rs: seq<Record>)
    requires Tight(hash, d, g, emitted, mid) && Spans(rs, emitted, mid, end)
    ensures Settled(hash, Appended(d, g, Framed(hash, rs)), g, emitted, end, mid)
      && PairOf(Appended(d, g, Framed(hash, rs)), g).log.Some?
  {
    assert Placed(0);
    AppendHolds(hash, PairOf(d, g), emitted, mid, end, rs);
  }

  lemma FlushKeeps(hash: Hash, d: Directory, g: nat, emitted: seq<Record>, end: nat, safe: nat, policy: SyncPolicy)
    requires Settled(hash, d, g, emitted, end, safe) && PairOf(d, g).log.Some? && policy != NoSync
    ensures Tight(hash, Flushed(d, g, policy), g, emitted, end)
  {
    assert Placed(0);
    assert Inked(0);
  }

  /** Dropping an older generation's files touches nothing recovery would pick. */
  lemma RemovalKeeps(hash: Hash, d: Directory, g: nat, emitted: seq<Record>, end: nat, retired: nat, p: Pair)
    requires Tight(hash, d, g, emitted, end) && retired < g && (retired in d.files || p == NOTHING)
    ensures Tight(hash, Put(d, retired, p), g, emitted, end)
  {
    assert Placed(0);
  }

  /** A log that holds any prefix starts with the magic. */
  lemma ImageStarts(hash: Hash, f: LogFile, emitted: seq<Record>, base: nat, end: nat, safe: nat)
    requires LogHolds(hash, f, emitted, base, end, safe)
    ensures |f.bytes| >= |MAGIC| && f.bytes[..|MAGIC|] == MAGIC
  {
    assert Inked(0);
  }

  /** Opening a missing log, or one that holds its records already. */
  lemma OpenKeeps(hash: Hash, d: Directory, g: nat, emitted: seq<Record>, end: nat)
    requires Settled(hash, d, g, emitted, end, end)
    ensures Created(d, g, |MAGIC|).Some? && Tight(hash, Created(d, g, |MAGIC|).value, g, emitted, end)
  {
    assert Placed(0);
    var p := PairOf(d, g);
    match p.log
    case Some(f) => ImageStarts(hash, f, emitted, Base(p.snapshot), end, end);
    case None =>
      LogImageEmpty(hash);
      assert emitted[end..end] == [];
  }

  /** The new snapshot stands for exactly the records so far, with no log yet. */
  lemma RenameKeeps(hash: Hash, d: Directory, g: nat, emitted: seq<Record>, end: nat)
    requires Tight(hash, d, g, emitted, end)
    ensures Beside(hash, Renamed(d, g + 1, end), g, emitted, end)
  {
    assert Placed(0);
    assert g + 1 !in d.files;
    assert Firm(Renamed(d, g + 1, end)) == d.files.Keys;
  }

  lemma DirSyncKeeps(hash: Hash, d: Directory, g: nat, emitted: seq<Record>, end: nat)
    requires Beside(hash, d, g, emitted, end)
    ensures Settled(hash, DirSynced(d), g + 1, emitted, end, end) && PairOf(DirSynced(d), g + 1).log == None
  {
    assert Placed(0);
    assert d.files.Keys == Firm(d) + {g + 1};
  }

  /** Where the batch at hand begins after one more effect. */
  function Advanced(phase: Phase, start: nat): nat { if phase.Written? then start + Len(phase.commit) else start }

  lemma BeginLeads(o: Options, d: Directory, g: nat, c: Commit, emitted: seq<Record>, start: nat)
    requires InPhase(o, Writer(d, g, Begin(c)), emitted, start)
    ensures if c.before == [] then InPhase(o, Writer(d, g, Retire(c)), emitted, start)
            else InPhase(o, Writer(Appended(d, g, Framed(o.hash, c.before)), g, BeforeWritten(c)), emitted, start)
  {
    assert Entered(0);
    if c.before != [] { AppendKeeps(o.hash, d, g, emitted, start, start + |c.before|, c.before); }
  }

  lemma BeforeWrittenLeads(o: Options, d: Directory, g: nat, c: Commit, emitted: seq<Record>, start: nat)
    requires Trusted(o) && InPhase(o, Writer(d, g, BeforeWritten(c)), emitted, start)
    ensures InPhase(o, Writer(Flushed(d, g, o.policy), g, Retire(c)), emitted, start)
  {
    assert Entered(0);
    FlushKeeps(o.hash, d, g, emitted, start + |c.before|, start, o.policy);
  }

  lemma RetireLeads(o: Options, d: Directory, g: nat, c: Commit, emitted: seq<Record>, start: nat)
    requires InPhase(o, Writer(d, g, Retire(c)), emitted, start)
    ensures if c.snapshot == None then InPhase(o, Writer(d, g, Appending(c)), emitted, start)
            else InPhase(o, Writer(Renamed(d, g + 1, c.snapshot.value), g, Named(c)), emitted, start)
  {
    assert Entered(0);
    RenameKeeps(o.hash, d, g, emitted, start + |c.before|);
  }

  lemma NamedLeads(o: Options, d: Directory, g: nat, c: Commit, emitted: seq<Record>, start: nat)
    requires InPhase(o, Writer(d, g, Named(c)), emitted, start)
    ensures InPhase(o, Writer(DirSynced(d), g, Opening(Some(c))), emitted, start)
  {
    assert Entered(0);
    DirSyncKeeps(o.hash, d, g, emitted, start + |c.before|);
  }

  lemma OpeningLeads(o: Options, d: Directory, g: nat, c: Commit, emitted: seq<Record>, start: nat)
    requires InPhase(o, Writer(d, g, Opening(Some(c))), emitted, start)
    ensures Created(d, g + 1, |MAGIC|).Some?
      && InPhase(o, Writer(Created(d, g + 1, |MAGIC|).value, g + 1, Opened(c, g)), emitted, start)
  {
    assert Entered(0);
    OpenKeeps(o.hash, d, g + 1, emitted, start + |c.before|);
  }

  lemma ResumingLeads(o: Options, d: Directory, g: nat, emitted: seq<Record>, start: nat)
    requires InPhase(o, Writer(d, g, Opening(None)), emitted, start)
    ensures Created(d, g, |MAGIC|).Some? && InPhase(o, Writer(Created(d, g, |MAGIC|).value, g, Idle), emitted, start)
  {
    assert Entered(0);
    OpenKeeps(o.hash, d, g, emitted, start);
  }

  lemma OpenedLeads(o: Options, d: Directory, g: nat, c: Commit, retired: nat, emitted: seq<Record>, start: nat)
    requires InPhase(o, Writer(d, g, Opened(c, retired)), emitted, start)
    ensures InPhase(o, Writer(SnapshotRemoved(d, retired), g, Swept(c, retired)), emitted, start)
  {
    assert Entered(0);
    RemovalKeeps(o.hash, d, g, emitted, start + |c.before|, retired, PairOf(d, retired).(snapshot := None));
  }

  lemma SweptLeads(o: Options, d: Directory, g: nat, c: Commit, retired: nat, emitted: seq<Record>, start: nat)
    requires InPhase(o, Writer(d, g, Swept(c, retired)), emitted, start)
    ensures InPhase(o, Writer(LogRemoved(d, retired), g, Appending(c)), emitted, start)
  {
    assert Entered(0);
    RemovalKeeps(o.hash, d, g, emitted, start + |c.before|, retired, PairOf(d, retired).(log := None));
  }

  lemma AppendingLeads(o: Options, d: Directory, g: nat, c: Commit, emitted: seq<Record>, start: nat)
    requires InPhase(o, Writer(d, g, Appending(c)), emitted, start)
    ensures var led := InPhase(o, Writer(Appended(d, g, Framed(o.hash, c.frames)), g, Written(c)), emitted, start); led
  {
    LeaveAppending(o, d, g, c, emitted, start);
    AppendKeeps(o.hash, d, g, emitted, start + |c.before|, start + Len(c), c.frames);
    EnterWritten(o, Appended(d, g, Framed(o.hash, c.frames)), g, c, emitted, start);
  }

  lemma LeaveAppending(o: Options, d: Directory, g: nat, c: Commit, emitted: seq<Record>, start: nat)
    requires InPhase(o, Writer(d, g, Appending(c)), emitted, start)
    ensures Fits(c, emitted, start) && Tight(o.hash, d, g, emitted, start + |c.before|)
  {
    assert Entered(0);
  }

  lemma EnterWritten(o: Options, d: Directory, g: nat, c: Commit, emitted: seq<Record>, start: nat)
    requires Fits(c, emitted, start) && Settled(o.hash, d, g, emitted, start + Len(c), start + |c.before|)
      && PairOf(d, g).log.Some?
    ensures InPhase(o, Writer(d, g, Written(c)), emitted, start)
  {}

  lemma WrittenLeads(o: Options, d: Directory, g: nat, c: Commit, emitted: seq<Record>, start: nat)
    requires Trusted(o) && InPhase(o, Writer(d, g, Written(c)), emitted, start)
    ensures var led := InPhase(o, Writer(Flushed(d, g, o.policy), g, Releasing(c)), emitted, start + Len(c)); led
  {
    LeaveWritten(o, d, g, c, emitted, start);
    FlushKeeps(o.hash, d, g, emitted, start + Len(c), start + |c.before|, o.policy);
    EnterReleasing(o, Flushed(d, g, o.policy), g, c, emitted, start + Len(c));
  }

  lemma LeaveWritten(o: Options, d: Directory, g: nat, c: Commit, emitted: seq<Record>, start: nat)
    requires InPhase(o, Writer(d, g, Written(c)), emitted, start)
    ensures Settled(o.hash, d, g, emitted, start + Len(c), start + |c.before|) && PairOf(d, g).log.Some?
    ensures start + Len(c) <= |emitted| && forall t :: t in c.acks ==> t <= start + Len(c)
  {
    assert Entered(0);
  }

  lemma EnterReleasing(o: Options, d: Directory, g: nat, c: Commit, emitted: seq<Record>, end: nat)
    requires end <= |emitted| && Tight(o.hash, d, g, emitted, end) && forall t :: t in c.acks ==> t <= end
    ensures InPhase(o, Writer(d, g, Releasing(c)), emitted, end)
  {
    EmptyFits(emitted, end);
  }

  lemma RetiringLeads(o: Options, w: Writer, emitted: seq<Record>, start: nat)
    requires Trusted(o) && InPhase(o, w, emitted, start)
    requires w.phase.Begin? || w.phase.BeforeWritten? || w.phase.Retire?
    ensures var led := InPhase(o, Work(o, w), emitted, Advanced(w.phase, start)); led
    ensures Advanced(w.phase, start) + Len(Unfinished(Work(o, w).phase)) == start + Len(Unfinished(w.phase))
  {
    var d, g := w.disk, w.generation;
    match w.phase
    case Begin(c) => BeginLeads(o, d, g, c, emitted, start);
    case BeforeWritten(c) => BeforeWrittenLeads(o, d, g, c, emitted, start);
    case Retire(c) => RetireLeads(o, d, g, c, emitted, start);
  }

  lemma RotatingLeads(o: Options, w: Writer, emitted: seq<Record>, start: nat)
    requires Trusted(o) && InPhase(o, w, emitted, start)
    requires w.phase.Named? || w.phase.Opening? || w.phase.Opened? || w.phase.Swept?
    ensures var led := InPhase(o, Work(o, w), emitted, Advanced(w.phase, start)); led
    ensures Advanced(w.phase, start) + Len(Unfinished(Work(o, w).phase)) == start + Len(Unfinished(w.phase))
  {
    var d, g := w.disk, w.generation;
    match w.phase
    case Named(c) => NamedLeads(o, d, g, c, emitted, start);
    case Opening(next) => if next == None { ResumingLeads(o, d, g, emitted, start); }
        else { OpeningLeads(o, d, g, next.value, emitted, start); }
    case Opened(c, retired) => OpenedLeads(o, d, g, c, retired, emitted, start);
    case Swept(c, retired) => SweptLeads(o, d, g, c, retired, emitted, start);
  }

  /** Every effect of the writer keeps the disk in the shape its next phase calls for. */
  lemma WorkLeads(o: Options, w: Writer, emitted: seq<Record>, start: nat)
    requires Trusted(o) && InPhase(o, w, emitted, start) && w.phase != Idle && !w.phase.Releasing?
    ensures var led := InPhase(o, Work(o, w), emitted, Advanced(w.phase, start)); led
    ensures Advanced(w.phase, start) + Len(Unfinished(Work(o, w).phase)) == start + Len(Unfinished(w.phase))
  {
    NotStuck(o, w, emitted, start);
    match w.phase
    case Appending(c) => AppendingLeads(o, w.disk, w.generation, c, emitted, start);
    case Written(c) => WrittenLeads(o, w.disk, w.generation, c, emitted, start);
    case _ => if w.phase.Begin? || w.phase.BeforeWritten? || w.phase.Retire? { RetiringLeads(o, w, emitted, start); }
        else { RotatingLeads(o, w, emitted, start); }
  }

  lemma NotStuck(o: Options, w: Writer, emitted: seq<Record>, start: nat)
    requires InPhase(o, w, emitted, start)
    ensures w.phase != Stuck && !w.phase.Magic?
  {
    assert Entered(0);
  }

  lemma ReceiveKeeps(o: Options, s: State)
    requires var ok := Ok(o, s); ok && s.writer.phase == Idle && s.queue != []
    ensures var kept := Ok(o, s.(queue := s.queue[1..], writer := s.writer.(phase := Begin(s.queue[0])))); kept
  {
    var c := s.queue[0];
    assert Fits(c, s.emitted, s.start);
    Received(o, s.writer, c, s.emitted, s.start);
  }

  lemma Received(o: Options, w: Writer, c: Commit, emitted: seq<Record>, start: nat)
    requires InPhase(o, w, emitted, start) && w.phase == Idle && Fits(c, emitted, start)
    ensures InPhase(o, w.(phase := Begin(c)), emitted, start)
  {
    assert Entered(0);
  }

  lemma Released(o: Options, w: Writer, emitted: seq<Record>, start: nat, released: nat)
    requires InPhase(o, w, emitted, start) && w.phase.Releasing? && released <= start
    ensures InPhase(o, w.(phase := Idle), emitted, start) && Latest(w.phase.commit.acks, released) <= start
  {
    assert Entered(0);
  }

  lemma EngineKeeps(o: Options, s: State, a: Action)
    requires var ok := Ok(o, s); ok && (a.Emit? || a.Defer? || a.Attach? || a.Send?) && Next(o, s, a).Some?
    ensures var kept := Ok(o, Next(o, s, a).value); kept
  {
    match a
    case Emit(r) => EmitKeeps(o, s, r);
    case Defer => DeferKeeps(o, s);
    case Attach => AttachKeeps(o, s);
    case Send => SendKeeps(o, s);
  }

  /** Every action keeps the invariant. */
  lemma NextKeeps(o: Options, s: State, a: Action)
    requires var ok := Ok(o, s); Trusted(o) && ok && Next(o, s, a).Some?
    ensures var kept := Ok(o, Next(o, s, a).value); kept
  {
    match a
    case Receive => ReceiveKeeps(o, s);
    case Effect => EffectKeeps(o, s);
    case Release => ReleaseKeeps(o, s);
    case Crash(left) => CrashSurvived(o, s, left);
    case Fail => assert false;
    case _ => EngineKeeps(o, s, a);
  }

  lemma AttachKeeps(o: Options, s: State)
    requires var ok := Ok(o, s); ok && s.pending.snapshot == None
    ensures var kept := Ok(o, s.(pending := Attached(s.pending, |s.emitted|))); kept
  {
    AttachedFits(s.pending, s.emitted, |s.emitted| - Len(s.pending));
  }

  lemma ReleaseKeeps(o: Options, s: State)
    requires var ok := Ok(o, s); ok && s.writer.phase.Releasing?
    ensures var kept := Ok(o, s.(released := Latest(s.writer.phase.commit.acks, s.released),
                                 writer := s.writer.(phase := Idle))); kept
  {
    Released(o, s.writer, s.emitted, s.start, s.released);
  }

  lemma DeferKeeps(o: Options, s: State)
    requires var ok := Ok(o, s); ok
    ensures var kept := Ok(o, s.(pending := Deferred(s.pending, |s.emitted|))); kept
  {
    DeferredFits(s.pending, s.emitted, |s.emitted| - Len(s.pending));
  }

  lemma DeferredFits(c: Commit, emitted: seq<Record>, at: nat)
    requires Fits(c, emitted, at) && at + Len(c) == |emitted|
    ensures Fits(Deferred(c, |emitted|), emitted, at)
  {}

  lemma EffectKeeps(o: Options, s: State)
    requires var ok := Ok(o, s); Trusted(o) && ok && s.writer.phase != Idle && !s.writer.phase.Releasing?
    ensures var kept := Ok(o, s.(writer := Work(o, s.writer), start := Advanced(s.writer.phase, s.start))); kept
  {
    WorkLeads(o, s.writer, s.emitted, s.start);
  }

  lemma FirstOk(o: Options)
    ensures Ok(o, FIRST)
  {
    RestartOk(o, [], 0, BARE, 0);
  }

  /** In every state the protocol can reach, whatever the interleaving and however many crashes came before. */
  lemma {:induction false} RunsKeep(o: Options, actions: seq<Action>)
    requires Trusted(o) && Run(o, actions).Some?
    ensures Ok(o, Run(o, actions).value)
    decreases |actions|
  {
    if actions == [] {
      FirstOk(o);
    } else {
      var before := actions[..|actions| - 1];
      RunsKeep(o, before);
      NextKeeps(o, Run(o, before).value, actions[|actions| - 1]);
    }
  }

  /** With a real sync policy, no failing writes and whole logs, no reachable state can lose what was released. */
  lemma TrustedIsSafe(o: Options)
    requires Trusted(o)
    ensures AlwaysSafe(o)
  {
    forall actions | Run(o, actions).Some? ensures Safe(o, Run(o, actions).value) {
      RunsKeep(o, actions);
      OkIsSafe(o, Run(o, actions).value);
    }
  }

  lemma OkIsSafe(o: Options, s: State)
    requires Ok(o, s)
    ensures Safe(o, s)
  {
    forall left | Survives(s.writer.disk, left) ensures Recovers(o, s, left) { CrashSurvived(o, s, left); }
  }

  // ---- nothing is lost, repeated or reordered ----

  function Both(c: Commit): seq<Record> { c.before + c.frames }

  /** The records of the batches, in order. */
  function Outstanding(cs: seq<Commit>): seq<Record> { if cs == [] then [] else Both(cs[0]) + Outstanding(cs[1..]) }

  lemma FitsBoth(c: Commit, emitted: seq<Record>, from: nat)
    requires Fits(c, emitted, from)
    ensures Spans(Both(c), emitted, from, from + Len(c))
  {
    assert Shown(0);
  }

  lemma SpansJoin(a: seq<Record>, b: seq<Record>, emitted: seq<Record>, from: nat, mid: nat, to: nat)
    requires Spans(a, emitted, from, mid) && Spans(b, emitted, mid, to)
    ensures Spans(a + b, emitted, from, to)
  {
    assert Shown(0);
  }

  lemma {:induction false} CoversSpan(cs: seq<Commit>, emitted: seq<Record>, from: nat, to: nat)
    requires Covers(cs, emitted, from, to) && to <= |emitted|
    ensures Spans(Outstanding(cs), emitted, from, to)
    decreases |cs|
  {
    if cs == [] {
      SpansNothing(emitted, from);
    } else {
      FitsBoth(cs[0], emitted, from);
      CoversSpan(cs[1..], emitted, from + Len(cs[0]), to);
      SpansJoin(Both(cs[0]), Outstanding(cs[1..]), emitted, from, from + Len(cs[0]), to);
    }
  }

  /** What is not yet finished is exactly the unfinished batch, the queue and the pending batch, end to end,
      however often a full queue made batches merge. */
  lemma NothingLost(o: Options, actions: seq<Action>)
    requires Trusted(o) && Run(o, actions).Some?
    ensures var s := Run(o, actions).value;
            s.start <= |s.emitted| && s.emitted[s.start..]
                == Both(Unfinished(s.writer.phase)) + Outstanding(s.queue) + Both(s.pending)
  {
    RunsKeep(o, actions);
    InLine(o, Run(o, actions).value);
  }

  lemma InLine(o: Options, s: State)
    requires Ok(o, s)
    ensures s.start <= |s.emitted|
      && s.emitted[s.start..] == Both(Unfinished(s.writer.phase)) + Outstanding(s.queue) + Both(s.pending)
  {
    var e, c, at := s.emitted, Unfinished(s.writer.phase), |s.emitted| - Len(s.pending);
    var mid := s.start + Len(c);
    assert Fits(c, e, s.start) by { assert Entered(0); }
    FitsBoth(c, e, s.start);
    CoversSpan(s.queue, e, mid, at);
    FitsBoth(s.pending, e, at);
    SpansJoin(Both(c), Outstanding(s.queue), e, s.start, mid, at);
    SpansJoin(Both(c) + Outstanding(s.queue), Both(s.pending), e, s.start, at, |e|);
    SpansSlice(Both(c) + Outstanding(s.queue) + Both(s.pending), e, s.start, |e|);
  }

  // ---- what the assumptions are worth ----

  lemma Then(o: Options, actions: seq<Action>, s: State, a: Action, t: State)
    requires Run(o, actions) == Some(s) && Next(o, s, a) == Some(t)
    ensures Run(o, actions + [a]) == Some(t)
  {
    var more := actions + [a];
    assert more[..|more| - 1] == actions && more[|more| - 1] == a;
  }

  lemma Unsafe(o: Options, actions: seq<Action>, s: State, left: Directory)
    requires Run(o, actions) == Some(s) && Survives(s.writer.disk, left) && !Recovers(o, s, left)
    ensures !AlwaysSafe(o)
  {
    assert !Safe(o, s);
  }

  /** The only generation in the directory. */
  function Only(g: nat, p: Pair): Directory { Directory(map[g := p], None) }

  lemma OnlyIsHighest(g: nat, p: Pair)
    ensures Highest(Only(g, p).files.Keys) == g && Firm(Only(g, p)) == Only(g, p).files.Keys
  {
    HighestIsUnique(Only(g, p).files.Keys, Highest(Only(g, p).files.Keys), g);
  }

  lemma OnlySurvives(g: nat, p: Pair, q: Pair)
    requires Cut(p, q)
    ensures Survives(Only(g, p), Only(g, q))
  {
    OnlyIsHighest(g, p);
  }

  /** A crash between creating the first log and its magic leaves a file that recovery refuses. */
  lemma SplitOpenIsUnsafe(o: Options)
    requires !o.wholeOpen
    ensures !AlwaysSafe(o)
  {
    var full, cut := Pair(None, Some(LogFile(MAGIC, 0))), Pair(None, Some(LogFile([], 0)));
    var s := FIRST.(writer := Writer(Only(0, full), 0, Magic(None)));
    assert Work(o, FIRST.writer) == s.writer;
    Then(o, [], FIRST, Effect, s);
    assert [] + [Effect] == [Effect];
    OnlySurvives(0, full, cut);
    OnlyIsHighest(0, cut);
    Unsafe(o, [Effect], s, Only(0, cut));
  }

  const OPENED: Pair := Pair(None, Some(LogFile(MAGIC, 8)))

  lemma FirstOpen(o: Options) returns (s: State)
    requires o.wholeOpen
    ensures s == FIRST.(writer := Writer(Only(0, OPENED), 0, Idle)) && Run(o, [Effect]) == Some(s)
  {
    s := FIRST.(writer := Writer(Only(0, OPENED), 0, Idle));
    Then(o, [], FIRST, Effect, s);
    assert [] + [Effect] == [Effect];
  }

  const SAMPLE: Record := Forgotten(JobId(0, 0))

  lemma SamplePrints()
    ensures Printable([SAMPLE])
  {
    assert AllLoggable([SAMPLE]);
  }

  /** The pending batch goes through the empty queue to the idle writer. */
  lemma Handed(o: Options, actions: seq<Action>, s: State) returns (more: seq<Action>, t: State)
    requires Run(o, actions) == Some(s) && s.writer.phase == Idle && s.queue == [] && s.pending != EMPTY && o.depth > 0
    ensures Run(o, more) == Some(t) && t == s.(pending := EMPTY, writer := s.writer.(phase := Begin(s.pending)))
  {
    var sent := s.(pending := EMPTY, queue := [s.pending]);
    assert s.queue + [s.pending] == [s.pending] && sent.queue[1..] == s.queue;
    Then(o, actions, s, Send, sent);
    t := s.(pending := EMPTY, writer := s.writer.(phase := Begin(s.pending)));
    Then(o, actions + [Send], sent, Receive, t);
    more := actions + [Send] + [Receive];
  }

  lemma OneEffect(o: Options, actions: seq<Action>, s: State) returns (more: seq<Action>, t: State)
    requires Run(o, actions) == Some(s) && s.writer.phase != Idle && !s.writer.phase.Releasing?
      && s.writer.phase != Stuck
    ensures Run(o, more) == Some(t) && t == s.(writer := Work(o, s.writer), start := Advanced(s.writer.phase, s.start))
  {
    t := s.(writer := Work(o, s.writer), start := Advanced(s.writer.phase, s.start));
    Then(o, actions, s, Effect, t);
    more := actions + [Effect];
  }

  /** The new generation's files once a snapshot standing for `k` records has been filed and its log opened. */
  function Rotated(k: nat): Pair { Pair(Some(k), Some(LogFile(MAGIC, 8))) }

  /** The directories a first rotation passes through. */
  lemma Rotation(k: nat)
    ensures var named := Directory(map[0 := OPENED, 1 := Pair(Some(k), None)], Some(1));
            var open := Directory(map[0 := OPENED, 1 := Rotated(k)], None);
            && Renamed(Only(0, OPENED), 1, k) == named && Created(DirSynced(named), 1, 8) == Some(open)
            && SnapshotRemoved(open, 0) == open && LogRemoved(open, 0) == Only(1, Rotated(k))
  {
    assert map[0 := OPENED, 1 := Rotated(k)] - {0} == map[1 := Rotated(k)];
    assert map[0 := OPENED][1 := Pair(Some(k), None)] == map[0 := OPENED, 1 := Pair(Some(k), None)];
    assert map[0 := OPENED, 1 := Pair(Some(k), None)][1 := Rotated(k)] == map[0 := OPENED, 1 := Rotated(k)];
    assert map[0 := OPENED, 1 := Rotated(k)][0 := OPENED] == map[0 := OPENED, 1 := Rotated(k)];
  }

  lemma RotatesTo(o: Options, actions: seq<Action>, s: State, c: Commit) returns (more: seq<Action>, t: State)
    requires Run(o, actions) == Some(s) && o.wholeOpen && s.writer == Writer(Only(0, OPENED), 0, Begin(c))
    requires c.before == [] && c.snapshot.Some?
    ensures Run(o, more) == Some(t) && t == s.(writer := Writer(Only(1, Rotated(c.snapshot.value)), 1, Appending(c)))
  {
    var k := c.snapshot.value;
    Rotation(k);
    more, t := OneEffect(o, actions, s);
    more, t := OneEffect(o, more, t);
    assert t.writer == Writer(Directory(map[0 := OPENED, 1 := Pair(Some(k), None)], Some(1)), 0, Named(c));
    more, t := OneEffect(o, more, t);
    more, t := OneEffect(o, more, t);
    assert t.writer == Writer(Directory(map[0 := OPENED, 1 := Rotated(k)], None), 1, Opened(c, 0));
    more, t := OneEffect(o, more, t);
    more, t := OneEffect(o, more, t);
  }

  /** The batch's records are appended, the log flushed as the policy says, and its replies released. */
  lemma WritesAndReleases(o: Options, actions: seq<Action>, s: State, g: nat, snapshot: Option<nat>, c: Commit,
                          ack: nat)
    returns (more: seq<Action>, t: State)
    requires Run(o, actions) == Some(s)
      && s.writer == Writer(Only(g, Pair(snapshot, Some(LogFile(MAGIC, 8)))), g, Appending(c))
    requires c.frames == [SAMPLE] && c.acks == [ack] && s.released <= ack
    ensures var bytes := LogImage(o.hash, [SAMPLE]);
            && Run(o, more) == Some(t) && t.emitted == s.emitted && t.released == ack
            && t.writer == Writer(Only(g,
                Pair(snapshot, Some(LogFile(bytes, if o.policy == NoSync then 8 else |bytes|)))), g, Idle)
  {
    var bytes := MAGIC + Framed(o.hash, [SAMPLE]);
    more, t := OneEffect(o, actions, s);
    assert t.writer == Writer(Only(g, Pair(snapshot, Some(LogFile(bytes, 8)))), g, Written(c));
    more, t := OneEffect(o, more, t);
    var u := t.(released := Latest(c.acks, t.released), writer := t.writer.(phase := Idle));
    assert u.released == ack by { assert ack in c.acks; }
    Then(o, more, t, Release, u);
    more, t := more + [Release], u;
  }

  lemma MagicParses(hash: Hash)
    ensures ParseOf(hash, Decode, MAGIC) == Parsed([], None)
  {
    ParseOfImage(hash, []);
    LogImageEmpty(hash);
  }

  lemma SampleParses(hash: Hash)
    ensures ParseOf(hash, Decode, LogImage(hash, [SAMPLE])) == Parsed([SAMPLE], None)
  {
    SamplePrints();
    assert Typed(0);
    ParseOfImage(hash, [SAMPLE]);
  }

  /** The engine emits the sample into the pending batch. */
  lemma SampleEmitted(o: Options, actions: seq<Action>, s: State, t: State)
    requires Run(o, actions) == Some(s) && s.writer.phase != Stuck && s.pending.frames == []
    requires t == s.(emitted := s.emitted + [SAMPLE], pending := s.pending.(frames := [SAMPLE]))
    ensures Run(o, actions + [Emit(SAMPLE)]) == Some(t)
  {
    SamplePrints();
    assert s.pending.frames + [SAMPLE] == [SAMPLE];
    Then(o, actions, s, Emit(SAMPLE), t);
  }

  /** Without syncing, a released reply's record may never reach the disk. */
  lemma NoSyncIsUnsafe(o: Options)
    requires o.wholeOpen && o.policy == NoSync && o.depth > 0
    ensures !AlwaysSafe(o)
  {
    var s := FirstOpen(o);
    var c := Commit([], [SAMPLE], [], Some(0));
    var s1 := s.(emitted := [SAMPLE], pending := c);
    assert s.emitted + [SAMPLE] == [SAMPLE];
    SampleEmitted(o, [Effect], s, s1);
    assert c.acks + [1] == [1];
    var s2 := s1.(pending := Deferred(c, 1));
    Then(o, [Effect] + [Emit(SAMPLE)], s1, Defer, s2);
    var more, t := Handed(o, [Effect] + [Emit(SAMPLE)] + [Defer], s2);
    more, t := RotatesTo(o, more, t, Deferred(c, 1));
    more, t := WritesAndReleases(o, more, t, 1, Some(0), Deferred(c, 1), 1);
    var bytes := LogImage(o.hash, [SAMPLE]);
    var full, cut := Pair(Some(0), Some(LogFile(bytes, 8))), Rotated(0);
    assert bytes[..8] == MAGIC;
    OnlySurvives(1, full, cut);
    OnlyIsHighest(1, cut);
    MagicParses(o.hash);
    Unsafe(o, more, t, Only(1, cut));
  }

  /** A batch dropped by a failing write is missing from the log, yet the next batch's replies are released. */
  lemma FaultsAreUnsafe(o: Options)
    requires o.wholeOpen && o.faults && o.depth > 0
    ensures !AlwaysSafe(o)
  {
    var s := FirstOpen(o);
    var s1 := s.(emitted := [SAMPLE], pending := Commit([], [SAMPLE], [], Some(0)));
    assert s.emitted + [SAMPLE] == [SAMPLE];
    SampleEmitted(o, [Effect], s, s1);
    var more, t := Handed(o, [Effect] + [Emit(SAMPLE)], s1);
    var s2 := s1.(pending := EMPTY);
    Then(o, more, t, Fail, s2);
    more, t := more + [Fail], s2;
    var c := Commit([], [SAMPLE], [2], None);
    var s3 := s2.(emitted := [SAMPLE, SAMPLE], pending := Commit([], [SAMPLE], [], None));
    assert s2.emitted + [SAMPLE] == [SAMPLE, SAMPLE] && s3.pending.acks + [2] == [2];
    SampleEmitted(o, more, s2, s3);
    Then(o, more + [Emit(SAMPLE)], s3, Defer, s3.(pending := c));
    more, t := Handed(o, more + [Emit(SAMPLE)] + [Defer], s3.(pending := c));
    more, t := OneEffect(o, more, t);
    more, t := OneEffect(o, more, t);
    more, t := WritesAndReleases(o, more, t, 0, None, c, 2);
    var bytes := LogImage(o.hash, [SAMPLE]);
    var p, q := PairOf(t.writer.disk, 0), Pair(None, Some(LogFile(bytes, |bytes|)));
    assert bytes[..|bytes|] == bytes;
    OnlySurvives(0, p, q);
    OnlyIsHighest(0, q);
    SampleParses(o.hash);
    Unsafe(o, more, t, Only(0, q));
  }

  // ---- a queue of depth zero ----

  /** The same machine with nothing to fear. */
  function Ideal(o: Options): Options { o.(policy := Full, faults := false) }

  /** Nothing ever reaches the writer. */
  ghost predicate Unsent(s: State) { s.queue == [] && (s.writer.phase == Idle || s.writer.phase == Opening(None)) }

  lemma {:induction false} DepthZeroIsIdeal(o: Options, actions: seq<Action>)
    requires o.depth == 0 && o.wholeOpen && Run(o, actions).Some?
    ensures Run(Ideal(o), actions) == Run(o, actions) && Unsent(Run(o, actions).value)
    decreases |actions|
  {
    if actions != [] {
      var before := actions[..|actions| - 1];
      DepthZeroIsIdeal(o, before);
      RunsKeep(Ideal(o), actions[..|actions| - 1]);
      UnsentStep(o, Run(o, before).value, actions[|actions| - 1]);
    }
  }

  lemma UnsentStep(o: Options, s: State, a: Action)
    requires o.depth == 0 && o.wholeOpen && Unsent(s) && Ok(Ideal(o), s) && Next(o, s, a).Some?
    ensures Next(Ideal(o), s, a) == Next(o, s, a) && Unsent(Next(o, s, a).value)
  {
    var t := Next(o, s, a).value;
    assert Next(Ideal(o), s, a) == Next(o, s, a);
    NextKeeps(Ideal(o), s, a);
    NotStuck(Ideal(o), t.writer, t.emitted, t.start);
  }

  /** Exactly when no run can lose what it released: logs are born whole, and either nothing is ever handed to the
      writer or every batch is synced and no write fails. */
  lemma SafeIff(o: Options)
    ensures AlwaysSafe(o) <==> o.wholeOpen && (o.depth == 0 || (o.policy != NoSync && !o.faults))
  {
    if !o.wholeOpen {
      SplitOpenIsUnsafe(o);
    } else if o.depth == 0 {
      forall actions | Run(o, actions).Some? ensures Safe(o, Run(o, actions).value) {
        DepthZeroIsIdeal(o, actions);
        RunsKeep(Ideal(o), actions);
        OkIsSafe(Ideal(o), Run(o, actions).value);
        SafeIgnores(o, Ideal(o), Run(o, actions).value);
      }
    } else if o.policy == NoSync {
      NoSyncIsUnsafe(o);
    } else if o.faults {
      FaultsAreUnsafe(o);
    } else {
      TrustedIsSafe(o);
    }
  }

  /** Recovery looks only at the disk. */
  lemma SafeIgnores(o: Options, p: Options, s: State)
    requires o.hash == p.hash && Safe(p, s)
    ensures Safe(o, s)
  {
    forall left | Survives(s.writer.disk, left) ensures Recovers(o, s, left) { assert Recovers(p, s, left); }
  }
}
