/** The data directory as a map from generations to files, and what each file operation does to it. */
module Stores {
  import opened Domain
  import opened Codec
  import opened Replay
  import opened Records
  import opened Logs

  datatype SyncPolicy = Full | Data | NoSync

  /** A log file: its bytes, and how many of them are known to be on disk. */
  datatype LogFile = LogFile(bytes: Bytes, synced: nat)

  /** One generation's files. A snapshot is named by how many records of the history it stands for. */
  datatype Pair = Pair(snapshot: Option<nat>, log: Option<LogFile>)

  const NOTHING: Pair := Pair(None, None)

  /** The directory; `loose` is a generation whose file name is not yet known to be on disk. */
  datatype Directory = Directory(files: map<nat, Pair>, loose: Option<nat>)

  const BARE: Directory := Directory(map[], None)

  function PairOf(d: Directory, g: nat): Pair { if g in d.files then d.files[g] else NOTHING }

  /** Generation `g` now holds `p`; a generation is listed while either of its files exists. */
  function Put(d: Directory, g: nat, p: Pair): Directory {
    d.(files := if p == NOTHING then d.files - {g} else d.files[g := p])
  }

  // ---- what the store does to the directory ----

  /** Bytes written to the log of `g`, not yet on disk. */
  function Appended(d: Directory, g: nat, bytes: Bytes): Directory {
    match PairOf(d, g).log
    case None => d
    case Some(f) => Put(d, g, PairOf(d, g).(log := Some(f.(bytes := f.bytes + bytes))))
  }

  /** The log of `g` pushed to disk, unless the policy is not to. */
  function Flushed(d: Directory, g: nat, policy: SyncPolicy): Directory {
    match PairOf(d, g).log
    case None => d
    case Some(f) => if policy == NoSync then d else Put(d, g, PairOf(d, g).(log := Some(f.(synced := |f.bytes|))))
  }

  /** A finished temporary file renamed to the snapshot of `g`. */
  function Renamed(d: Directory, g: nat, snapshot: nat): Directory {
    Put(d, g, PairOf(d, g).(snapshot := Some(snapshot))).(loose := Some(g))
  }

  function DirSynced(d: Directory): Directory { d.(loose := None) }

  /** Opens the log of `g`: a missing or empty file gets the magic, any other must start with it. */
  function Created(d: Directory, g: nat, synced: nat): Option<Directory> {
    var log := PairOf(d, g).log;
    if log == None || log.value.bytes == [] then Some(Put(d, g, PairOf(d, g).(log := Some(LogFile(MAGIC, synced)))))
    else if |log.value.bytes| >= |MAGIC| && log.value.bytes[..|MAGIC|] == MAGIC then Some(d)
    else None
  }

  function SnapshotRemoved(d: Directory, g: nat): Directory { Put(d, g, PairOf(d, g).(snapshot := None)) }

  function LogRemoved(d: Directory, g: nat): Directory { Put(d, g, PairOf(d, g).(log := None)) }

  // ---- recovery ----

  ghost predicate IsHighest(gs: set<nat>, g: nat) {
    (forall h :: h in gs ==> h <= g) && (g in gs || (gs == {} && g == 0))
  }

  ghost function Highest(gs: set<nat>): (g: nat)
    ensures IsHighest(gs, g)
  {
    if gs == {} then 0
    else
      var h :| h in gs;
      var rest := Highest(gs - {h});
      assert gs == (gs - {h}) + {h};
      if rest <= h then h else rest
  }

  datatype Recovered = Recovered(generation: nat, snapshot: Option<nat>, records: seq<Record>,
                                 tornAt: Option<nat>) | Refused

  /** The log's records, none when the file is missing. */
  function ReadPair(hash: Hash, p: Pair): ParseResult {
    match p.log
    case None => Parsed([], None)
    case Some(f) => ParseOf(hash, Decode, f.bytes)
  }

  ghost function RecoverOf(hash: Hash, d: Directory): Recovered {
    var g := Highest(d.files.Keys);
    match ReadPair(hash, PairOf(d, g))
    case Parsed(rs, torn) => Recovered(g, PairOf(d, g).snapshot, rs, torn)
    case _ => Refused
  }

  /** The torn tail cut off the log of `g`, and the cut pushed to disk. */
  function CutBack(d: Directory, g: nat, tornAt: Option<nat>): Directory {
    match PairOf(d, g).log
    case None => d
    case Some(f) =>
      var kept := Mended(f.bytes, tornAt);
      if tornAt == None then d else Put(d, g, PairOf(d, g).(log := Some(LogFile(kept, |kept|))))
  }

  lemma {:induction false} ScanMovesOn(hash: Hash, bytes: Bytes, pos: nat)
    ensures var s := Scan(hash, Decode, bytes, pos); s.Scanned? ==> s.stop >= pos
    decreases if pos <= |bytes| then |bytes| - pos else 0
  {
    var frame := FrameAt(hash, bytes, pos);
    if frame.Some? { ScanMovesOn(hash, bytes, pos + HEADER + |frame.value|); }
  }

  /** A log recovery could read can be opened again once its torn tail is gone. */
  lemma RecoveredOpens(hash: Hash, d: Directory)
    requires RecoverOf(hash, d).Recovered?
    ensures var r := RecoverOf(hash, d); Created(CutBack(d, r.generation, r.tornAt), r.generation, |MAGIC|).Some?
  {
    var r := RecoverOf(hash, d);
    var log := PairOf(d, r.generation).log;
    if log.Some? {
      var bytes := log.value.bytes;
      ScanMovesOn(hash, bytes, |MAGIC|);
      var kept := Mended(bytes, r.tornAt);
      assert |kept| >= |MAGIC| && kept[..|MAGIC|] == MAGIC;
    }
  }

  /** Reads the highest generation and cuts a torn tail off its log in place. */
  method Recover(hash: Hash, d: Directory) returns (r: Recovered, after: Directory)
    ensures r == RecoverOf(hash, d)
    ensures after == if r.Recovered? then CutBack(d, r.generation, r.tornAt) else d
  {
    var generation, rest := 0, d.files.Keys;
    while rest != {}
      invariant rest <= d.files.Keys && IsHighest(d.files.Keys - rest, generation)
      decreases |rest|
    {
      var g :| g in rest;
      assert d.files.Keys - (rest - {g}) == (d.files.Keys - rest) + {g};
      if generation < g { generation := g; }
      rest := rest - {g};
    }
    assert d.files.Keys - rest == d.files.Keys;
    var pair := PairOf(d, generation);
    var result := Parsed([], None);
    if pair.log.Some? { result := ParseLog(hash, Decode, pair.log.value.bytes); }
    if !result.Parsed? { return Refused, d; }
    r := Recovered(generation, pair.snapshot, result.records, result.tornAt);
    after := CutBack(d, generation, result.tornAt);
  }

  // ---- the store ----

  /** The writer's handle on the directory. */
  class Store {
    var dir: Directory
    var generation: nat

    constructor (dir: Directory, generation: nat)
      ensures this.dir == dir && this.generation == generation
    {
      this.dir := dir;
      this.generation := generation;
    }

    /** Opens the current generation's log for appending. */
    method Resume() returns (ok: bool)
      modifies this
      ensures generation == old(generation)
      ensures ok == Created(old(dir), generation, |MAGIC|).Some?
      ensures dir == if ok then Created(old(dir), generation, |MAGIC|).value else old(dir)
    {
      var made := Created(dir, generation, |MAGIC|);
      if made == None { return false; }
      dir := made.value;
      return true;
    }

    method Append(frames: Bytes)
      modifies this
      ensures dir == Appended(old(dir), generation, frames) && generation == old(generation)
    {
      dir := Appended(dir, generation, frames);
    }

    method Sync(policy: SyncPolicy)
      modifies this
      ensures dir == Flushed(old(dir), generation, policy) && generation == old(generation)
    {
      dir := Flushed(dir, generation, policy);
    }

    /** Moves on to the next generation; a foreign file in the new log's place stops it half-way. */
    method Rotate(snapshot: nat) returns (ok: bool)
      modifies this
      ensures var d := DirSynced(Renamed(old(dir), old(generation) + 1, snapshot));
              var made := Created(d, old(generation) + 1, |MAGIC|);
              && ok == made.Some?
              && (ok ==>
                  && generation == old(generation) + 1
                  && dir == LogRemoved(SnapshotRemoved(made.value, old(generation)), old(generation)))
              && (!ok ==> generation == old(generation) && dir == d)
    {
      var next := generation + 1;
      dir := Renamed(dir, next, snapshot);
      dir := DirSynced(dir);
      var made := Created(dir, next, |MAGIC|);
      if made == None { return false; }
      dir := made.value;
      var retired := generation;
      generation := next;
      dir := SnapshotRemoved(dir, retired);
      dir := LogRemoved(dir, retired);
      return true;
    }
  }
}
