/** A snapshot as bytes, written whole and read whole. */
module SnapshotCodec {
  import opened Domain
  import Arenas
  import opened Codec
  import opened Records
  import opened Logs
  import opened FairShares
  import opened Recoveries

  // ---- lists ----

  function PutAll<T>(put: T -> Bytes, xs: seq<T>): Bytes {
    if xs == [] then [] else PutAll(put, xs[..|xs| - 1]) + put(xs[|xs| - 1])
  }

  function AllAt<T>(read: (Bytes, nat) -> Read<T>, buf: Bytes, pos: nat, n: nat): Read<seq<T>>
    decreases n
  {
    if n == 0 then Got([], pos)
    else match AllAt(read, buf, pos, n - 1)
      case Bad(e) => Bad(e)
      case Got(xs, next) => match read(buf, next)
        case Bad(e) => Bad(e)
        case Got(x, end) => Got(xs + [x], end)
  }

  /** Each member of `xs`, wherever it stands in `buf`, is read back from there. */
  ghost predicate ReadsBack<T(!new)>(put: T -> Bytes, read: (Bytes, nat) -> Read<T>, buf: Bytes, xs: seq<T>) {
    forall x, p: nat :: x in xs && Holds(buf, p, put(x)) ==> read(buf, p) == Got(x, p + |put(x)|)
  }

  lemma AllOneMore<T(!new)>(read: (Bytes, nat) -> Read<T>, buf: Bytes, pos: nat, front: seq<T>, at: nat, last: T,
                            end: nat)
    requires AllAt(read, buf, pos, |front|) == Got(front, at) && read(buf, at) == Got(last, end)
    ensures AllAt(read, buf, pos, |front| + 1) == Got(front + [last], end)
  {}

  lemma ReadsBackFront<T(!new)>(put: T -> Bytes, read: (Bytes, nat) -> Read<T>, buf: Bytes, xs: seq<T>)
    requires ReadsBack(put, read, buf, xs) && xs != []
    ensures ReadsBack(put, read, buf, xs[..|xs| - 1])
    ensures forall p: nat :: Holds(buf, p, put(xs[|xs| - 1])) ==>
              read(buf, p) == Got(xs[|xs| - 1], p + |put(xs[|xs| - 1])|)
  {
    assert xs[|xs| - 1] in xs;
  }

  /** All but the last member, and the last. */
  lemma PutAllLast<T>(put: T -> Bytes, xs: seq<T>, front: seq<T>, last: T)
    requires xs != [] && front == xs[..|xs| - 1] && last == xs[|xs| - 1]
    ensures PutAll(put, xs) == PutAll(put, front) + put(last)
  {}

  lemma FrontAndLast<T>(xs: seq<T>)
    requires xs != []
    ensures xs == xs[..|xs| - 1] + [xs[|xs| - 1]]
  {}

  /** One more member behind a list that is read back. */
  lemma AllBackStep<T(!new)>(put: T -> Bytes, read: (Bytes, nat) -> Read<T>, buf: Bytes, pos: nat, front: seq<T>,
                             last: T, bytes: Bytes)
    requires bytes == PutAll(put, front) + put(last) && Holds(buf, pos, bytes)
    requires Holds(buf, pos, PutAll(put, front)) ==>
              AllAt(read, buf, pos, |front|) == Got(front, pos + |PutAll(put, front)|)
    requires forall p: nat :: Holds(buf, p, put(last)) ==> read(buf, p) == Got(last, p + |put(last)|)
    ensures AllAt(read, buf, pos, |front| + 1) == Got(front + [last], pos + |bytes|)
  {
    var first := PutAll(put, front);
    HoldsBoth(buf, pos, bytes, first, put(last));
    AllOneMore(read, buf, pos, front, pos + |first|, last, pos + |bytes|);
  }

  /** Whatever is read back one by one is read back as a list. */
  lemma {:induction false} AllBack<T(!new)>(put: T -> Bytes, read: (Bytes, nat) -> Read<T>, buf: Bytes, pos: nat,
      xs: seq<T>, n: nat)
    requires n == |xs| && Holds(buf, pos, PutAll(put, xs)) && ReadsBack(put, read, buf, xs)
    ensures AllAt(read, buf, pos, n) == Got(xs, pos + |PutAll(put, xs)|)
    decreases n
  {
    if n > 0 {
      var front, last := xs[..n - 1], xs[n - 1];
      PutAllLast(put, xs, front, last);
      ReadsBackFront(put, read, buf, xs);
      if Holds(buf, pos, PutAll(put, front)) { AllBack(put, read, buf, pos, front, n - 1); }
      AllBackStep(put, read, buf, pos, front, last, PutAll(put, xs));
      FrontAndLast(xs);
    }
  }

  /** A counted list. */
  function PutList<T>(put: T -> Bytes, xs: seq<T>): Bytes { Little(|xs|, 4) + PutAll(put, xs) }

  function ListAt<T>(read: (Bytes, nat) -> Read<T>, buf: Bytes, pos: nat): Read<seq<T>> {
    match NumberAt(buf, pos, 4)
    case Bad(e) => Bad(e)
    case Got(n, next) => AllAt(read, buf, next, n)
  }

  lemma ListBack<T(!new)>(put: T -> Bytes, read: (Bytes, nat) -> Read<T>, buf: Bytes, pos: nat, xs: seq<T>)
    requires |xs| <= U32_MAX && Holds(buf, pos, PutList(put, xs)) && ReadsBack(put, read, buf, xs)
    ensures ListAt(read, buf, pos) == Got(xs, pos + |PutList(put, xs)|)
  {
    HoldsParts(buf, pos, Little(|xs|, 4), PutAll(put, xs));
    NumberBack4(buf, pos, |xs|);
    AllBack(put, read, buf, pos + 4, xs, |xs|);
  }

  // ---- slots, handles, ledgers ----

  type Slot = Arenas.Slot<Job>

  function PutSlot(slot: Slot): Bytes {
    match slot
    case Occupied(g, job) => [1] + (Little(g, 4) + PutJob(job))
    case Vacant(g, next) => [0] + (Little(g, 4) + PutOpt(next))
  }

  function SlotAt(buf: Bytes, pos: nat): Read<Slot> {
    var tag := TagAt(buf, pos, 1);
    if tag.Bad? then Bad(tag.error)
    else
      var g := NumberFit(buf, tag.next, 4);
      if g.Bad? then Bad(g.error)
      else if tag.value == 1 then
        var job := JobAt(buf, g.next);
        if job.Bad? then Bad(job.error) else Got(Arenas.Occupied(g.value, job.value), job.next)
      else
        var next := OptFit(buf, g.next);
        if next.Bad? then Bad(next.error) else Got(Arenas.Vacant(g.value, next.value), next.next)
  }

  function OptFit(buf: Bytes, pos: nat): (r: Read<Option<u32>>) {
    match TagAt(buf, pos, 1)
    case Bad(e) => Bad(e)
    case Got(tag, next) =>
      if tag == 0 then Got(None, next)
      else match NumberFit(buf, next, 4)
        case Bad(e) => Bad(e)
        case Got(v, end) => Got(Some(v), end)
  }

  lemma OptFitBack(buf: Bytes, pos: nat, v: Option<u32>)
    requires Holds(buf, pos, PutOpt(v))
    ensures OptFit(buf, pos) == Got(v, pos + |PutOpt(v)|)
  {
    match v
    case None => TagBack(buf, pos, 0, 1);
    case Some(x) =>
      HoldsParts(buf, pos, [1], Little(x, 4));
      TagBack(buf, pos, 1, 1);
      NumberBack4(buf, pos + 1, x);
  }

  predicate WritableSlot(slot: Slot) { slot.Occupied? ==> Writable(slot.value) }

  lemma SlotBack(buf: Bytes, pos: nat, slot: Slot)
    requires WritableSlot(slot) && Holds(buf, pos, PutSlot(slot))
    ensures SlotAt(buf, pos) == Got(slot, pos + |PutSlot(slot)|)
  {
    match slot
    case Occupied(g, job) =>
      var body := PutJob(job);
      HoldsThree(buf, pos, [1], Little(g, 4), body);
      TagBack(buf, pos, 1, 1);
      NumberBack4(buf, pos + 1, g);
      JobBack(buf, pos + 5, job);
    case Vacant(g, next) =>
      HoldsThree(buf, pos, [0], Little(g, 4), PutOpt(next));
      TagBack(buf, pos, 0, 1);
      NumberBack4(buf, pos + 1, g);
      OptFitBack(buf, pos + 5, next);
  }

  function PutId(id: JobId): Bytes { Little(id.Bits(), 8) }

  function IdAt(buf: Bytes, pos: nat): Read<JobId> {
    match NumberFit(buf, pos, 8)
    case Bad(e) => Bad(e)
    case Got(bits, next) => Got(FromBits(bits), next)
  }

  /** Usage, running cpu, shares, and the two marks. */
  function PutLedger(l: Ledger): Bytes {
    Little(l.usage, 8) + (Little(l.runningCpu,
        8) + (Little(l.shares, 4) + (Little(l.accruedTo, 8) + Little(l.decayedTo, 8))))
  }

  function LedgerAt(buf: Bytes, pos: nat): Read<Ledger> {
    var usage := NumberFit(buf, pos, 8);
    if usage.Bad? then Bad(usage.error)
    else
      var cpu := NumberFit(buf, usage.next, 8);
      if cpu.Bad? then Bad(cpu.error)
      else
        var shares := NumberFit(buf, cpu.next, 4);
        if shares.Bad? then Bad(shares.error)
        else
          var accrued := NumberFit(buf, shares.next, 8);
          if accrued.Bad? then Bad(accrued.error)
          else
            var decayed := NumberFit(buf, accrued.next, 8);
            if decayed.Bad? then Bad(decayed.error)
            else Got(Ledger(usage.value, cpu.value, shares.value, accrued.value, decayed.value), decayed.next)
  }

  lemma LedgerBack(buf: Bytes, pos: nat, l: Ledger)
    requires Holds(buf, pos, PutLedger(l))
    ensures LedgerAt(buf, pos) == Got(l, pos + |PutLedger(l)|)
  {
    var marks := Little(l.accruedTo, 8) + Little(l.decayedTo, 8);
    HoldsThree(buf, pos, Little(l.usage, 8), Little(l.runningCpu, 8), Little(l.shares, 4) + marks);
    HoldsParts(buf, pos + 16, Little(l.shares, 4), marks);
    HoldsParts(buf, pos + 20, Little(l.accruedTo, 8), Little(l.decayedTo, 8));
    NumberBack8(buf, pos, l.usage);
    NumberBack8(buf, pos + 8, l.runningCpu);
    NumberBack4(buf, pos + 16, l.shares);
    NumberBack8(buf, pos + 20, l.accruedTo);
    NumberBack8(buf, pos + 28, l.decayedTo);
  }

  // ---- the whole snapshot ----

  const SNAPSHOT_MAGIC: Bytes := [84, 75, 82, 83, 78, 80, 48, 50]

  /** When, the slots, the free list's head, the running handles, the ledgers. */
  function PutBody(s: Snapshot): Bytes { Little(s.takenAt, 8) + (PutList(PutSlot, s.jobs.slots) + PutRear(s)) }

  function BodyAt(buf: Bytes, pos: nat): Read<Snapshot> {
    var at := NumberFit(buf, pos, 8);
    if at.Bad? then Bad(at.error)
    else
      var slots := ListAt(SlotAt, buf, at.next);
      if slots.Bad? then Bad(slots.error)
      else
        var rear := RearAt(buf, slots.next);
        if rear.Bad? then Bad(rear.error)
        else Got(Snapshot(at.value, Arenas.View(slots.value, rear.value.freeHead), rear.value.running,
                          rear.value.ledgers), rear.next)
  }

  /** What the source asserts when it writes: every list fits its length prefix. */
  predicate Saveable(s: Snapshot) {
    && |s.jobs.slots| <= U32_MAX && |s.running| <= U32_MAX && |s.ledgers| <= U32_MAX
    && forall i :: 0 <= i < |s.jobs.slots| ==> WritableSlot(s.jobs.slots[i])
  }

  function PutRear(s: Snapshot): Bytes {
    PutOpt(s.jobs.freeHead) + (PutList(PutId, s.running) + PutList(PutLedger, s.ledgers))
  }

  datatype Rear = Rear(freeHead: Option<u32>, running: seq<JobId>, ledgers: seq<Ledger>)

  function RearAt(buf: Bytes, pos: nat): Read<Rear> {
    var freeHead := OptFit(buf, pos);
    if freeHead.Bad? then Bad(freeHead.error)
    else
      var running := ListAt(IdAt, buf, freeHead.next);
      if running.Bad? then Bad(running.error)
      else
        var ledgers := ListAt(LedgerAt, buf, running.next);
        if ledgers.Bad? then Bad(ledgers.error)
            else Got(Rear(freeHead.value, running.value, ledgers.value), ledgers.next)
  }

  lemma RearJoins(buf: Bytes, pos: nat, s: Snapshot, p: nat, q: nat, end: nat)
    requires OptFit(buf, pos) == Got(s.jobs.freeHead, p) && ListAt(IdAt, buf, p) == Got(s.running, q)
      && ListAt(LedgerAt, buf, q) == Got(s.ledgers, end)
    ensures RearAt(buf, pos) == Got(Rear(s.jobs.freeHead, s.running, s.ledgers), end)
  {}

  lemma RearReads(buf: Bytes, pos: nat, s: Snapshot, p: nat, q: nat)
    requires Saveable(s) && Holds(buf, pos, PutOpt(s.jobs.freeHead)) && Holds(buf, p, PutList(PutId, s.running))
      && Holds(buf, q, PutList(PutLedger, s.ledgers))
    requires p == pos + |PutOpt(s.jobs.freeHead)| && q == p + |PutList(PutId, s.running)|
    ensures RearAt(buf, pos) == Got(Rear(s.jobs.freeHead, s.running, s.ledgers), q + |PutList(PutLedger, s.ledgers)|)
  {
    OptFitBack(buf, pos, s.jobs.freeHead);
    RunningBack(buf, p, s.running);
    LedgersBack(buf, q, s.ledgers);
    RearJoins(buf, pos, s, p, q, q + |PutList(PutLedger, s.ledgers)|);
  }

  lemma RearBack(buf: Bytes, pos: nat, s: Snapshot)
    requires Saveable(s) && Holds(buf, pos, PutRear(s))
    ensures RearAt(buf, pos) == Got(Rear(s.jobs.freeHead, s.running, s.ledgers), pos + |PutRear(s)|)
  {
    var free, running, ledgers := PutOpt(s.jobs.freeHead), PutList(PutId, s.running), PutList(PutLedger, s.ledgers);
    HoldsThree(buf, pos, free, running, ledgers);
    ThreeLength(free, running, ledgers);
    RearReads(buf, pos, s, pos + |free|, pos + |free| + |running|);
  }

  lemma ThreeLength(a: Bytes, b: Bytes, c: Bytes)
    ensures |a + (b + c)| == |a| + |b| + |c|
  {}

  lemma BodyReads(buf: Bytes, pos: nat, s: Snapshot, p: nat, q: nat)
    requires Saveable(s) && Holds(buf, pos, Little(s.takenAt, 8)) && Holds(buf, p, PutList(PutSlot, s.jobs.slots))
      && Holds(buf, q, PutRear(s))
    requires p == pos + 8 && q == p + |PutList(PutSlot, s.jobs.slots)|
    ensures NumberAt(buf, pos, 8) == Got(s.takenAt, p) && ListAt(SlotAt, buf, p) == Got(s.jobs.slots, q)
    ensures RearAt(buf, q) == Got(Rear(s.jobs.freeHead, s.running, s.ledgers), q + |PutRear(s)|)
  {
    NumberBack8(buf, pos, s.takenAt);
    SlotsBack(buf, p, s);
    RearBack(buf, q, s);
  }

  lemma BodyBack(buf: Bytes, pos: nat, s: Snapshot)
    requires Saveable(s) && Holds(buf, pos, PutBody(s))
    ensures BodyAt(buf, pos) == Got(s, pos + |PutBody(s)|)
  {
    var at, slots, rear := Little(s.takenAt, 8), PutList(PutSlot, s.jobs.slots), PutRear(s);
    HoldsThree(buf, pos, at, slots, rear);
    ThreeLength(at, slots, rear);
    BodyReads(buf, pos, s, pos + 8, pos + 8 + |slots|);
    BodyJoins(buf, pos, s, pos + 8, pos + 8 + |slots|, pos + 8 + |slots| + |rear|);
  }

  lemma BodyJoins(buf: Bytes, pos: nat, s: Snapshot, p: nat, q: nat, end: nat)
    requires NumberAt(buf, pos, 8) == Got(s.takenAt, p) && ListAt(SlotAt, buf, p) == Got(s.jobs.slots, q)
    requires RearAt(buf, q) == Got(Rear(s.jobs.freeHead, s.running, s.ledgers), end)
    ensures BodyAt(buf, pos) == Got(s, end)
  {}

  lemma SlotsBack(buf: Bytes, pos: nat, s: Snapshot)
    requires Saveable(s) && Holds(buf, pos, PutList(PutSlot, s.jobs.slots))
    ensures ListAt(SlotAt, buf, pos) == Got(s.jobs.slots, pos + |PutList(PutSlot, s.jobs.slots)|)
  {
    forall x, p: nat | x in s.jobs.slots
        && Holds(buf, p, PutSlot(x)) ensures SlotAt(buf, p) == Got(x, p + |PutSlot(x)|) {
      SlotBack(buf, p, x);
    }
    ListBack(PutSlot, SlotAt, buf, pos, s.jobs.slots);
  }

  lemma RunningBack(buf: Bytes, pos: nat, ids: seq<JobId>)
    requires |ids| <= U32_MAX && Holds(buf, pos, PutList(PutId, ids))
    ensures ListAt(IdAt, buf, pos) == Got(ids, pos + |PutList(PutId, ids)|)
  {
    forall x, p: nat | x in ids && Holds(buf, p, PutId(x)) ensures IdAt(buf, p) == Got(x, p + |PutId(x)|) {
      IdBack(buf, p, x);
    }
    ListBack(PutId, IdAt, buf, pos, ids);
  }

  lemma LedgersBack(buf: Bytes, pos: nat, ledgers: seq<Ledger>)
    requires |ledgers| <= U32_MAX && Holds(buf, pos, PutList(PutLedger, ledgers))
    ensures ListAt(LedgerAt, buf, pos) == Got(ledgers, pos + |PutList(PutLedger, ledgers)|)
  {
    forall x, p: nat | x in ledgers
        && Holds(buf, p, PutLedger(x)) ensures LedgerAt(buf, p) == Got(x, p + |PutLedger(x)|) {
      LedgerBack(buf, p, x);
    }
    ListBack(PutLedger, LedgerAt, buf, pos, ledgers);
  }

  datatype LoadResult = Loaded(s: Snapshot) | NotASnapshot | ChecksumMismatch | BadBody(error: CodecError)

  /** The snapshot file. */
  function EncodeSnapshot(hash: Hash,
                          s: Snapshot): Bytes { SNAPSHOT_MAGIC + (PutBody(s) + Little(hash(PutBody(s)), 4)) }

  function DecodeSnapshot(hash: Hash, bytes: Bytes): LoadResult {
    if |bytes| < 12 || bytes[..8] != SNAPSHOT_MAGIC then NotASnapshot
    else
      var body, crc := bytes[8..|bytes| - 4], Number(bytes[|bytes| - 4..]);
      if hash(body) != crc then ChecksumMismatch
      else match BodyAt(body, 0)
        case Bad(e) => BadBody(e)
        case Got(s, _) => LoadResult.Loaded(s)
  }

  /** `bytes` is a file around `body` whose checksum matches. */
  ghost predicate Seals(hash: Hash, bytes: Bytes, body: Bytes) {
    |bytes| >= 12 && bytes[..8] == SNAPSHOT_MAGIC && bytes[8..|bytes| - 4] == body
        && Number(bytes[|bytes| - 4..]) == hash(body)
  }

  lemma Sealed(hash: Hash, body: Bytes, bytes: Bytes)
    requires bytes == SNAPSHOT_MAGIC + (body + Little(hash(body), 4))
    ensures Seals(hash, bytes, body)
  {
    var crc := Little(hash(body), 4);
    assert bytes[|bytes| - 4..] == crc;
    Widths();
    LittleRoundTrip(hash(body), 4);
  }

  lemma Opens(hash: Hash, bytes: Bytes, body: Bytes, s: Snapshot)
    requires var seals, read := Seals(hash, bytes, body), BodyAt(body, 0) == Got(s, |body|); seals && read
    ensures DecodeSnapshot(hash, bytes) == LoadResult.Loaded(s)
  {}

  lemma BodyAlone(s: Snapshot, body: Bytes)
    requires Saveable(s) && body == PutBody(s)
    ensures BodyAt(body, 0) == Got(s, |body|)
  {
    HoldsAll(body);
    BodyBack(body, 0, s);
  }

  /** What is saved is loaded, slot for slot, link for link. */
  lemma SnapshotRoundTrip(hash: Hash, s: Snapshot)
    requires Saveable(s)
    ensures DecodeSnapshot(hash, EncodeSnapshot(hash, s)) == LoadResult.Loaded(s)
  {
    var body := PutBody(s);
    BodyAlone(s, body);
    Sealed(hash, body, EncodeSnapshot(hash, s));
    Opens(hash, EncodeSnapshot(hash, s), body, s);
  }
}
