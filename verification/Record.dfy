/** Log records as bytes. */
module Records {
  import opened Domain
  import opened Codec
  import opened Replay

  // ---- jobs ----

  function StateTag(state: JobState): u8 {
    match state
    case Submitted => 0 case Blocked => 1 case Ready => 2 case Running => 3
    case Completed => 4 case Failed => 5 case Preempted => 6 case Cancelled => 7
  }

  function StateOfTag(tag: nat): JobState
    requires tag <= 7
  {
    if tag == 0 then JobState.Submitted else if tag == 1 then JobState.Blocked else if tag == 2 then JobState.Ready
    else if tag == 3 then JobState.Running else if tag == 4 then JobState.Completed else if tag == 5
        then JobState.Failed
    else if tag == 6 then JobState.Preempted else JobState.Cancelled
  }

  function ClassOfTag(tag: nat): PriorityClass
    requires tag <= 3
  {
    if tag == 0 then Low else if tag == 1 then Normal else if tag == 2 then High else Urgent
  }

  /** A job's fields in the order they are laid out. */
  function PutJob(job: Job): Bytes {
    Little(job.account, 4) + ([job.priorityClass.Ordinal()] + (Little(job.submitTime, 8)
      + (PutRequest(job.request) + (Little(job.walltime, 8) + (Little(|job.deps|, 4)
      + (PutIds(job.deps) + (PutBytes(job.payload) + ([StateTag(job.state)] + [job.preemptions]))))))))
  }

  function PutRequest(r: Resources): Bytes { Little(r.cpu, 4) + (Little(r.mem, 8) + [r.gpus]) }

  /** What the source asserts when it writes: both lists fit their length prefix. */
  predicate Writable(job: Job) { |job.deps| <= U32_MAX && |job.payload| <= U32_MAX }

  function NumberFit(buf: Bytes, pos: nat, n: nat): (r: Read<nat>)
    requires n == 1 || n == 4 || n == 8
    ensures r == NumberAt(buf, pos, n)
    ensures r.Got? ==> r.value <= if n == 1 then U8_MAX else if n == 4 then U32_MAX else U64_MAX
  {
    var r := NumberAt(buf, pos, n);
    if r.Got? then NumberWidth(buf[pos..pos + n]); r else r
  }

  lemma NumberWidth(b: Bytes)
    requires |b| == 1 || |b| == 4 || |b| == 8
    ensures Number(b) <= if |b| == 1 then U8_MAX else if |b| == 4 then U32_MAX else U64_MAX
  {
    NumberBound(b);
    Widths();
  }

  function RequestAt(buf: Bytes, pos: nat): (r: Read<Resources>) {
    var cpu := NumberFit(buf, pos, 4);
    if cpu.Bad? then Bad(cpu.error)
    else
      var mem := NumberFit(buf, cpu.next, 8);
      if mem.Bad? then Bad(mem.error)
      else
        var gpus := NumberFit(buf, mem.next, 1);
        if gpus.Bad? then Bad(gpus.error) else Got(Vec(cpu.value, mem.value, gpus.value), gpus.next)
  }

  /** The part of a job before its lists. */
  datatype Head = Head(account: u32, cls: PriorityClass, submitTime: u64, request: Resources, walltime: u64)

  function HeadAt(buf: Bytes, pos: nat): Read<Head> {
    var account := NumberFit(buf, pos, 4);
    if account.Bad? then Bad(account.error)
    else
      var cls := TagAt(buf, account.next, 3);
      if cls.Bad? then Bad(cls.error)
      else
        var submit := NumberFit(buf, cls.next, 8);
        if submit.Bad? then Bad(submit.error)
        else
          var request := RequestAt(buf, submit.next);
          if request.Bad? then Bad(request.error)
          else
            var walltime := NumberFit(buf, request.next, 8);
            if walltime.Bad? then Bad(walltime.error)
            else Got(Head(account.value, ClassOfTag(cls.value), submit.value, request.value, walltime.value),
                     walltime.next)
  }

  function JobAt(buf: Bytes, pos: nat): Read<Job> {
    var head := HeadAt(buf, pos);
    if head.Bad? then Bad(head.error)
    else
      var deps := DepsAt(buf, head.next);
      if deps.Bad? then Bad(deps.error)
      else
        var end := EndAt(buf, deps.next);
        if end.Bad? then Bad(end.error)
        else
          var h, e := head.value, end.value;
          Got(Job(h.account, h.cls, h.submitTime, h.request, h.walltime, deps.value, e.payload, e.state, e.preemptions),
              end.next)
  }

  lemma NumberBack4(buf: Bytes, pos: nat, v: u32)
    requires Holds(buf, pos, Little(v, 4))
    ensures NumberAt(buf, pos, 4) == Got(v, pos + 4)
  {
    Widths();
    NumberBack(buf, pos, v, 4);
  }

  lemma NumberBack8(buf: Bytes, pos: nat, v: u64)
    requires Holds(buf, pos, Little(v, 8))
    ensures NumberAt(buf, pos, 8) == Got(v, pos + 8)
  {
    Widths();
    NumberBack(buf, pos, v, 8);
  }

  lemma NumberBack1(buf: Bytes, pos: nat, v: u8)
    requires Holds(buf, pos, [v])
    ensures NumberAt(buf, pos, 1) == Got(v, pos + 1)
  {
    Widths();
    assert Little(v, 1) == [v];
    NumberBack(buf, pos, v, 1);
  }

  lemma RequestBack(buf: Bytes, pos: nat, r: Resources)
    requires Holds(buf, pos, PutRequest(r))
    ensures RequestAt(buf, pos) == Got(r, pos + 13)
  {
    HoldsParts(buf, pos, Little(r.cpu, 4), Little(r.mem, 8) + [r.gpus]);
    HoldsParts(buf, pos + 4, Little(r.mem, 8), [r.gpus]);
    NumberBack4(buf, pos, r.cpu);
    NumberBack8(buf, pos + 4, r.mem);
    NumberBack1(buf, pos + 12, r.gpus);
  }

  function PutHead(job: Job): Bytes {
    Little(job.account, 4) + ([job.priorityClass.Ordinal()] + (Little(job.submitTime,
        8) + (PutRequest(job.request) + Little(job.walltime, 8))))
  }

  lemma HeadBack(buf: Bytes, pos: nat, job: Job)
    requires Holds(buf, pos, PutHead(job))
    ensures HeadAt(buf, pos) == Got(Head(job.account, job.priorityClass, job.submitTime, job.request, job.walltime),
                                    pos + |PutHead(job)|)
  {
    var walltime := Little(job.walltime, 8);
    var request := PutRequest(job.request) + walltime;
    var submit := Little(job.submitTime, 8) + request;
    HoldsParts(buf, pos, Little(job.account, 4), [job.priorityClass.Ordinal()] + submit);
    HoldsParts(buf, pos + 4, [job.priorityClass.Ordinal()], submit);
    HoldsParts(buf, pos + 5, Little(job.submitTime, 8), request);
    HoldsParts(buf, pos + 13, PutRequest(job.request), walltime);
    NumberBack4(buf, pos, job.account);
    TagBack(buf, pos + 4, job.priorityClass.Ordinal(), 3);
    NumberBack8(buf, pos + 5, job.submitTime);
    RequestBack(buf, pos + 13, job.request);
    NumberBack8(buf, pos + 26, job.walltime);
  }

  /** The part of a job after its dependency list. */
  function PutEnd(job: Job): Bytes { PutBytes(job.payload) + ([StateTag(job.state)] + [job.preemptions]) }

  datatype End = End(payload: Bytes, state: JobState, preemptions: u8)

  function EndAt(buf: Bytes, pos: nat): Read<End> {
    var payload := BytesAt(buf, pos);
    if payload.Bad? then Bad(payload.error)
    else
      var state := TagAt(buf, payload.next, 7);
      if state.Bad? then Bad(state.error)
      else
        var evictions := NumberFit(buf, state.next, 1);
        if evictions.Bad? then Bad(evictions.error)
        else Got(End(payload.value, StateOfTag(state.value), evictions.value), evictions.next)
  }

  function DepsAt(buf: Bytes, pos: nat): Read<seq<JobId>> {
    var count := NumberAt(buf, pos, 4);
    if count.Bad? then Bad(count.error) else IdsAt(buf, count.next, count.value)
  }

  lemma DepsBack(buf: Bytes, pos: nat, deps: seq<JobId>)
    requires |deps| <= U32_MAX && Holds(buf, pos, Little(|deps|, 4) + PutIds(deps))
    ensures DepsAt(buf, pos) == Got(deps, pos + 4 + |PutIds(deps)|)
  {
    HoldsParts(buf, pos, Little(|deps|, 4), PutIds(deps));
    NumberBack4(buf, pos, |deps|);
    IdsBack(buf, pos + 4, deps);
  }

  lemma EndBack(buf: Bytes, pos: nat, job: Job)
    requires |job.payload| <= U32_MAX && Holds(buf, pos, PutEnd(job))
    ensures EndAt(buf, pos) == Got(End(job.payload, job.state, job.preemptions), pos + |PutEnd(job)|)
  {
    var at, tags := pos + 4 + |job.payload|, [StateTag(job.state)] + [job.preemptions];
    HoldsParts(buf, pos, PutBytes(job.payload), tags);
    HoldsParts(buf, at, [StateTag(job.state)], [job.preemptions]);
    BytesBack(buf, pos, job.payload);
    TagBack(buf, at, StateTag(job.state), 7);
    NumberBack1(buf, at + 1, job.preemptions);
  }

  lemma JobSplits(job: Job)
    ensures PutJob(job) == PutHead(job) + ((Little(|job.deps|, 4) + PutIds(job.deps)) + PutEnd(job))
  {}

  /** A job written anywhere in a buffer is read back from there, whole. */
  lemma JobBack(buf: Bytes, pos: nat, job: Job)
    requires Writable(job) && Holds(buf, pos, PutJob(job))
    ensures JobAt(buf, pos) == Got(job, pos + |PutJob(job)|)
  {
    JobSplits(job);
    PartsBack(buf, pos, job, PutHead(job), Little(|job.deps|, 4) + PutIds(job.deps), PutEnd(job));
  }

  lemma PartsBack(buf: Bytes, pos: nat, job: Job, a: Bytes, b: Bytes, c: Bytes)
    requires Writable(job) && a == PutHead(job) && b == Little(|job.deps|, 4) + PutIds(job.deps) && c == PutEnd(job)
    requires Holds(buf, pos, a + (b + c))
    ensures JobAt(buf, pos) == Got(job, pos + |a + (b + c)|)
  {
    HoldsThree(buf, pos, a, b, c);
    HeadBack(buf, pos, job);
    DepsBack(buf, pos + |a|, job.deps);
    EndBack(buf, pos + |a| + |b|, job);
    JobJoins(buf, pos, job, pos + |a|, pos + |a| + |b|, pos + |a| + |b| + |c|);
  }

  lemma JobJoins(buf: Bytes, pos: nat, job: Job, p: nat, q: nat, r: nat)
    requires HeadAt(buf, pos) == Got(Head(job.account, job.priorityClass, job.submitTime, job.request, job.walltime), p)
    requires DepsAt(buf, p) == Got(job.deps, q) && EndAt(buf, q) == Got(End(job.payload, job.state, job.preemptions), r)
    ensures JobAt(buf, pos) == Got(job, r)
  {}

  // ---- records ----

  function Kind(r: Record): u8 {
    match r
    case Submitted(_, _) => 1 case Dispatched(_, _) => 2 case Completed(_, _) => 3 case Failed(_, _) => 4
    case Cancelled(_, _) => 5 case Requeued(_, _) => 6 case Forgotten(_) => 7 case Preempted(_, _) => 8
  }

  /** Kind, handle, then the job, nothing, or the time. */
  function Payload(r: Record): Bytes { [Kind(r)] + (Little(r.id.Bits(), 8) + Body(r)) }

  function Body(r: Record): Bytes {
    if r.Submitted? then PutJob(r.job) else if r.Forgotten? then [] else Little(r.at, 8)
  }

  predicate Loggable(r: Record) { (r.Submitted? ==> Writable(r.job)) && |Payload(r)| <= U32_MAX }

  /** Decodes one frame's payload. */
  function Decode(payload: Bytes): Read<Record> {
    var kind := TagAt(payload, 0, 8);
    if kind.Bad? then Bad(kind.error)
    else
      var bits := NumberFit(payload, kind.next, 8);
      if bits.Bad? then Bad(bits.error)
      else
        var id := FromBits(bits.value);
        if kind.value == 1 then
          var job := JobAt(payload, bits.next);
          if job.Bad? then Bad(job.error) else Got(Record.Submitted(id, job.value), job.next)
        else if kind.value == 7 then Got(Forgotten(id), bits.next)
        else
          var at := NumberFit(payload, bits.next, 8);
          if at.Bad? then Bad(at.error)
          else if kind.value == 2 then Got(Record.Dispatched(id, at.value), at.next)
          else if kind.value == 3 then Got(Record.Completed(id, at.value), at.next)
          else if kind.value == 4 then Got(Record.Failed(id, at.value), at.next)
          else if kind.value == 5 then Got(Record.Cancelled(id, at.value), at.next)
          else if kind.value == 6 then Got(Requeued(id, at.value), at.next)
          else if kind.value == 8 then Got(Record.Preempted(id, at.value), at.next)
          else Bad(BadTag(0, 0))
  }

  /** Where the parts of a payload stand. */
  lemma PayloadParts(r: Record, p: Bytes, body: Bytes)
    requires p == Payload(r) && body == Body(r)
    ensures Holds(p, 0, [Kind(r)]) && Holds(p, 1, Little(r.id.Bits(), 8)) && Holds(p, 9, body) && |p| == 9 + |body|
  {
    HoldsAll(p);
    HoldsThree(p, 0, [Kind(r)], Little(r.id.Bits(), 8), body);
  }

  /** The body is read as its record's kind says. */
  ghost predicate BodyReads(p: Bytes, r: Record) {
    match r
    case Submitted(_, job) => JobAt(p, 9) == Got(job, |p|)
    case Forgotten(_) => |p| == 9
    case _ => NumberAt(p, 9, 8) == Got(r.at, |p|)
  }

  lemma BodyBack(p: Bytes, r: Record)
    requires Loggable(r) && Holds(p, 9, Body(r)) && |p| == 9 + |Body(r)|
    ensures BodyReads(p, r)
  {
    if r.Submitted? {
      JobBack(p, 9, r.job);
    } else if !r.Forgotten? {
      NumberBack8(p, 9, r.at);
    }
  }

  lemma PartsDecode(p: Bytes, r: Record)
    requires TagAt(p, 0, 8) == Got(Kind(r), 1) && NumberAt(p, 1, 8) == Got(r.id.Bits(), 9)
      && FromBits(r.id.Bits()) == r.id
    requires var body := BodyReads(p, r); body
    ensures Decode(p) == Got(r, |p|)
  {}

  /** What `encode` writes, `decode` reads. */
  lemma DecodeRoundTrip(r: Record)
    requires Loggable(r)
    ensures Decode(Payload(r)) == Got(r, |Payload(r)|)
  {
    var p := Payload(r);
    PayloadParts(r, p, Body(r));
    HeadReads(p, r);
    BodyBack(p, r);
    PartsDecode(p, r);
  }

  lemma HeadReads(p: Bytes, r: Record)
    requires Holds(p, 0, [Kind(r)]) && Holds(p, 1, Little(r.id.Bits(), 8))
    ensures TagAt(p, 0, 8) == Got(Kind(r), 1) && NumberAt(p, 1, 8) == Got(r.id.Bits(), 9)
      && FromBits(r.id.Bits()) == r.id
  {
    TagBack(p, 0, Kind(r), 8);
    IdBack(p, 1, r.id);
  }

  // ---- reading through a cursor ----

  /** A number as wide as its field. */
  method GetFit(c: Cursor, n: nat) returns (r: Read<nat>)
    requires n == 1 || n == 4 || n == 8
    modifies c
    ensures r == NumberFit(c.buf, old(c.pos), n) && (r.Got? ==> c.pos == r.next)
  {
    r := c.GetNumber(n);
  }

  method GetRequest(c: Cursor) returns (r: Read<Resources>)
    modifies c
    ensures r == RequestAt(c.buf, old(c.pos)) && (r.Got? ==> c.pos == r.next)
  {
    var cpu := GetFit(c, 4);
    if cpu.Bad? { return Bad(cpu.error); }
    var mem := GetFit(c, 8);
    if mem.Bad? { return Bad(mem.error); }
    var gpus := GetFit(c, 1);
    if gpus.Bad? { return Bad(gpus.error); }
    r := Got(Vec(cpu.value, mem.value, gpus.value), c.pos);
  }

  method GetHead(c: Cursor) returns (r: Read<Head>)
    modifies c
    ensures r == HeadAt(c.buf, old(c.pos)) && (r.Got? ==> c.pos == r.next)
  {
    var account := GetFit(c, 4);
    if account.Bad? { return Bad(account.error); }
    var cls := c.GetTag(3);
    if cls.Bad? { return Bad(cls.error); }
    var submit := GetFit(c, 8);
    if submit.Bad? { return Bad(submit.error); }
    var request := GetRequest(c);
    if request.Bad? { return Bad(request.error); }
    var walltime := GetFit(c, 8);
    if walltime.Bad? { return Bad(walltime.error); }
    r := Got(Head(account.value, ClassOfTag(cls.value), submit.value, request.value, walltime.value), c.pos);
  }

  method GetDeps(c: Cursor) returns (r: Read<seq<JobId>>)
    modifies c
    ensures r == DepsAt(c.buf, old(c.pos)) && (r.Got? ==> c.pos == r.next)
  {
    var count := c.GetNumber(4);
    if count.Bad? { return Bad(count.error); }
    r := c.GetIds(count.value);
  }

  method GetEnd(c: Cursor) returns (r: Read<End>)
    modifies c
    ensures r == EndAt(c.buf, old(c.pos)) && (r.Got? ==> c.pos == r.next)
  {
    var payload := c.GetBytes();
    if payload.Bad? { return Bad(payload.error); }
    var state := c.GetTag(7);
    if state.Bad? { return Bad(state.error); }
    var evictions := GetFit(c, 1);
    if evictions.Bad? { return Bad(evictions.error); }
    r := Got(End(payload.value, StateOfTag(state.value), evictions.value), c.pos);
  }

  method GetJob(c: Cursor) returns (r: Read<Job>)
    modifies c
    ensures r == JobAt(c.buf, old(c.pos)) && (r.Got? ==> c.pos == r.next)
  {
    var head := GetHead(c);
    if head.Bad? { return Bad(head.error); }
    var deps := GetDeps(c);
    if deps.Bad? { return Bad(deps.error); }
    var end := GetEnd(c);
    if end.Bad? { return Bad(end.error); }
    var h, e := head.value, end.value;
    r := Got(Job(h.account, h.cls, h.submitTime, h.request, h.walltime, deps.value, e.payload, e.state, e.preemptions),
             c.pos);
  }

  method DecodeRecord(payload: Bytes) returns (r: Read<Record>)
    ensures r == Decode(payload)
  {
    var c := new Cursor(payload);
    var kind := c.GetTag(8);
    if kind.Bad? { return Bad(kind.error); }
    var bits := GetFit(c, 8);
    if bits.Bad? { return Bad(bits.error); }
    var id := FromBits(bits.value);
    if kind.value == 1 {
      var job := GetJob(c);
      if job.Bad? { return Bad(job.error); }
      return Got(Record.Submitted(id, job.value), c.pos);
    }
    if kind.value == 7 { return Got(Forgotten(id), c.pos); }
    var at := GetFit(c, 8);
    if at.Bad? { return Bad(at.error); }
    match kind.value {
      case 2 => return Got(Record.Dispatched(id, at.value), c.pos);
      case 3 => return Got(Record.Completed(id, at.value), c.pos);
      case 4 => return Got(Record.Failed(id, at.value), c.pos);
      case 5 => return Got(Record.Cancelled(id, at.value), c.pos);
      case 6 => return Got(Requeued(id, at.value), c.pos);
      case 8 => return Got(Record.Preempted(id, at.value), c.pos);
      case _ => return Bad(BadTag(0, 0));
    }
  }
}
