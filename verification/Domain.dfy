/** Values shared by every part of the scheduler: machine widths, resource vectors,
    job handles, jobs and the states they go through. */
module Domain {

  // Machine widths, stated as ranges so that wrapping, clamping and overflow are explicit.
  const U8_MAX: nat := 0xFF
  const U32_MAX: nat := 0xFFFF_FFFF
  const U64_MAX: nat := 0xFFFF_FFFF_FFFF_FFFF

  type u8 = x: nat | x <= 0xFF
  type u32 = x: nat | x <= 0xFFFF_FFFF
  type u64 = x: nat | x <= 0xFFFF_FFFF_FFFF_FFFF

  /** Larger scores are dispatched earlier. */
  type Score = u64

  datatype Option<+T> = None | Some(value: T)

  function Min(a: nat, b: nat): nat { if a <= b then a else b }

  /** Floors at zero, like every `saturating_sub` in the source. */
  function Monus(a: nat, b: nat): nat { if a <= b then 0 else a - b }

  function SaturatingAddTime(t: u64, delta: u64): u64 { Min(t + delta, U64_MAX) }

  /** CPU millicores, memory bytes and GPUs, without machine bounds: sums live here. */
  datatype Vec = Vec(cpu: nat, mem: nat, gpus: nat) {

    predicate FitsWithin(capacity: Vec) {
      cpu <= capacity.cpu && mem <= capacity.mem && gpus <= capacity.gpus
    }

    function Plus(other: Vec): Vec {
      Vec(cpu + other.cpu, mem + other.mem, gpus + other.gpus)
    }

    /** Componentwise difference, floored at zero. */
    function Minus(other: Vec): Vec {
      Vec(Monus(cpu, other.cpu), Monus(mem, other.mem), Monus(gpus, other.gpus))
    }

    predicate InWidth() { cpu <= U32_MAX && mem <= U64_MAX && gpus <= U8_MAX }
  }

  const ZERO: Vec := Vec(0, 0, 0)

  /** A resource vector that fits the source's `u32`, `u64` and `u8` fields. */
  type Resources = v: Vec | v.InWidth() witness Vec(0, 0, 0)

  /** Componentwise, at most what the fields hold. */
  function Clamp(v: Vec): Resources { Vec(Min(v.cpu, U32_MAX), Min(v.mem, U64_MAX), Min(v.gpus, U8_MAX)) }

  function SaturatingAdd(a: Resources, b: Resources): Resources { Clamp(a.Plus(b)) }

  function CheckedAdd(a: Resources, b: Resources): Option<Resources> {
    if a.Plus(b).InWidth() then Some(a.Plus(b)) else None
  }

  /** Handle to an arena slot; `Bits` is the packed form the source stores. */
  datatype JobId = JobId(index: u32, generation: u32) {
    function Bits(): u64 { generation * 0x1_0000_0000 + index }
  }

  function FromBits(bits: u64): JobId {
    JobId(bits % 0x1_0000_0000, bits / 0x1_0000_0000)
  }

  lemma BitsRoundTrip(id: JobId)
    ensures FromBits(id.Bits()) == id
  {}

  function Elements<T(==)>(s: seq<T>): set<T> { set x | x in s }

  datatype PriorityClass = Low | Normal | High | Urgent {
    function Ordinal(): nat {
      match this case Low => 0 case Normal => 1 case High => 2 case Urgent => 3
    }
  }

  datatype JobState = Submitted | Blocked | Ready | Running | Completed | Failed | Preempted | Cancelled {

    predicate IsTerminal() { Completed? || Failed? || Cancelled? }

    /** The whole state diagram. */
    predicate CanTransitionTo(next: JobState) {
      match this
      case Submitted => next.Blocked? || next.Ready? || next.Cancelled?
      case Blocked => next.Ready? || next.Cancelled?
      case Ready => next.Running? || next.Cancelled?
      case Running => next.Completed? || next.Failed? || next.Preempted? || next.Cancelled?
      case Preempted => next.Ready? || next.Completed? || next.Failed? || next.Cancelled?
      case _ => false
    }

    /** Holds cpu on a worker: charged to the account and bound to a slot. */
    predicate HoldsCpu() { Running? || Preempted? }
  }

  datatype Job = Job(
    account: u32,
    priorityClass: PriorityClass,
    submitTime: u64,
    request: Resources,
    walltime: u64,
    deps: seq<JobId>,
    payload: seq<u8>,
    state: JobState,
    preemptions: u8)
}
