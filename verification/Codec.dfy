/** Numbers, tags and byte strings as the log and the snapshot lay them out, and reading them back. */
module Codec {
  import opened Domain

  type Bytes = seq<u8>

  datatype CodecError = Truncated(at: nat) | BadTag(tag: u8, at: nat)

  /** A value read, and where the next one starts. */
  datatype Read<+T> = Got(value: T, next: nat) | Bad(error: CodecError)

  // ---- numbers ----

  function Power256(n: nat): nat { if n == 0 then 1 else 256 * Power256(n - 1) }

  /** The low `n` bytes of `v`, least significant first. */
  function Little(v: nat, n: nat): (b: Bytes)
    ensures |b| == n
  {
    if n == 0 then [] else [v % 256] + Little(v / 256, n - 1)
  }

  function Number(b: Bytes): nat { if b == [] then 0 else b[0] + 256 * Number(b[1..]) }

  lemma {:induction false} LittleRoundTrip(v: nat, n: nat)
    requires v < Power256(n)
    ensures Number(Little(v, n)) == v
  {
    if n > 0 {
      assert v / 256 < Power256(n - 1);
      LittleRoundTrip(v / 256, n - 1);
      assert Little(v, n)[1..] == Little(v / 256, n - 1);
    }
  }

  lemma {:induction false} NumberBound(b: Bytes)
    ensures Number(b) < Power256(|b|)
  {
    if b != [] { NumberBound(b[1..]); }
  }

  lemma Widths()
    ensures Power256(1) == 0x100 && Power256(4) == 0x1_0000_0000 && Power256(8) == 0x1_0000_0000_0000_0000
  {
    assert Power256(2) == 0x1_0000 && Power256(3) == 0x100_0000;
    assert Power256(5) == 0x100_0000_0000 && Power256(6) == 0x1_0000_0000_0000 && Power256(7) == 0x100_0000_0000_0000;
  }

  // ---- reading ----

  /** `n` bytes at `pos`, or where the input ended. */
  function Take(buf: Bytes, pos: nat, n: nat): (r: Read<Bytes>)
    ensures r.Got? ==> r.next == pos + n <= |buf| && r.value == buf[pos..pos + n]
  {
    if pos + n <= |buf| then Got(buf[pos..pos + n], pos + n) else Bad(Truncated(pos))
  }

  function NumberAt(buf: Bytes, pos: nat, n: nat): Read<nat> {
    match Take(buf, pos, n)
    case Got(b, next) => Got(Number(b), next)
    case Bad(e) => Bad(e)
  }

  /** Length-prefixed bytes. */
  function BytesAt(buf: Bytes, pos: nat): Read<Bytes> {
    match NumberAt(buf, pos, 4)
    case Got(n, next) => Take(buf, next, n)
    case Bad(e) => Bad(e)
  }

  /** One byte, refused above `max` with its value and place. */
  function TagAt(buf: Bytes, pos: nat, max: nat): Read<nat> {
    match NumberAt(buf, pos, 1)
    case Got(tag, next) => if tag > max then NumberIsByte(buf, pos); Bad(BadTag(tag, pos)) else Got(tag, next)
    case Bad(e) => Bad(e)
  }

  lemma NumberIsByte(buf: Bytes, pos: nat)
    requires NumberAt(buf, pos, 1).Got?
    ensures NumberAt(buf, pos, 1).value <= 0xFF
  {
    NumberBound(buf[pos..pos + 1]);
    Widths();
  }

  // ---- writing ----

  function PutBytes(b: Bytes): Bytes { Little(|b|, 4) + b }

  function PutOpt(v: Option<nat>): Bytes {
    match v case Some(x) => [1] + Little(x, 4) case None => [0]
  }

  // ---- what was written is read back, wherever it stands ----

  predicate Shown(k: int) { k == k }

  /** `e` stands in `buf` at `pos`. Sealed: `Shown` in scope unfolds it. */
  ghost predicate Holds(buf: Bytes, pos: nat, e: Bytes) {
    forall k: int :: Shown(k) ==> pos + |e| <= |buf| && buf[pos..pos + |e|] == e
  }

  lemma HoldsParts(buf: Bytes, pos: nat, a: Bytes, b: Bytes)
    requires Holds(buf, pos, a + b)
    ensures Holds(buf, pos, a) && Holds(buf, pos + |a|, b)
  {
    assert Shown(0);
    var ab := a + b;
    assert a == ab[..|a|] && b == ab[|a|..];
    assert buf[pos..pos + |a|] == buf[pos..pos + |ab|][..|a|];
    assert buf[pos + |a|..pos + |ab|] == buf[pos..pos + |ab|][|a|..];
  }

  lemma HoldsThree(buf: Bytes, pos: nat, a: Bytes, b: Bytes, c: Bytes)
    requires Holds(buf, pos, a + (b + c))
    ensures Holds(buf, pos, a) && Holds(buf, pos + |a|, b) && Holds(buf, pos + |a| + |b|, c)
  {
    HoldsParts(buf, pos, a, b + c);
    HoldsParts(buf, pos + |a|, b, c);
  }

  lemma HoldsAll(e: Bytes)
    ensures Holds(e, 0, e)
  {
    assert e[0..|e|] == e;
  }

  lemma NumberBack(buf: Bytes, pos: nat, v: nat, n: nat)
    requires v < Power256(n) && Holds(buf, pos, Little(v, n))
    ensures NumberAt(buf, pos, n) == Got(v, pos + n)
  {
    assert Shown(0);
    LittleRoundTrip(v, n);
  }

  lemma BytesBack(buf: Bytes, pos: nat, b: Bytes)
    requires |b| <= U32_MAX && Holds(buf, pos, PutBytes(b))
    ensures BytesAt(buf, pos) == Got(b, pos + 4 + |b|)
  {
    Widths();
    HoldsParts(buf, pos, Little(|b|, 4), b);
    NumberBack(buf, pos, |b|, 4);
    assert Shown(0);
  }

  lemma TagBack(buf: Bytes, pos: nat, tag: u8, max: nat)
    requires tag <= max && Holds(buf, pos, [tag])
    ensures TagAt(buf, pos, max) == Got(tag, pos + 1)
  {
    Widths();
    assert Little(tag, 1) == [tag];
    NumberBack(buf, pos, tag, 1);
  }

  // ---- lists of handles ----

  lemma HoldsBoth(buf: Bytes, pos: nat, whole: Bytes, first: Bytes, second: Bytes)
    requires whole == first + second && Holds(buf, pos, whole)
    ensures Holds(buf, pos, first) && Holds(buf, pos + |first|, second) && |whole| == |first| + |second|
  {
    HoldsParts(buf, pos, first, second);
  }

  function PutIds(ids: seq<JobId>): Bytes {
    if ids == [] then [] else PutIds(ids[..|ids| - 1]) + Little(ids[|ids| - 1].Bits(), 8)
  }

  /** `n` handles at `pos`. */
  function IdsAt(buf: Bytes, pos: nat, n: nat): Read<seq<JobId>>
    decreases n
  {
    if n == 0 then Got([], pos)
    else match IdsAt(buf, pos, n - 1)
      case Bad(e) => Bad(e)
      case Got(ids, next) => match NumberAt(buf, next, 8)
        case Bad(e) => Bad(e)
        case Got(bits, end) => NumberFits(buf, next); Got(ids + [FromBits(bits)], end)
  }

  lemma NumberFits(buf: Bytes, pos: nat)
    requires NumberAt(buf, pos, 8).Got?
    ensures NumberAt(buf, pos, 8).value <= U64_MAX
  {
    NumberBound(buf[pos..pos + 8]);
    Widths();
  }

  /** All but the last handle, and the last. */
  lemma PutIdsLast(ids: seq<JobId>, front: seq<JobId>, last: JobId)
    requires ids != [] && front == ids[..|ids| - 1] && last == ids[|ids| - 1]
    ensures PutIds(ids) == PutIds(front) + Little(last.Bits(), 8) && ids == front + [last]
  {}

  lemma {:induction false} IdsBack(buf: Bytes, pos: nat, ids: seq<JobId>)
    requires Holds(buf, pos, PutIds(ids))
    ensures IdsAt(buf, pos, |ids|) == Got(ids, pos + |PutIds(ids)|)
    decreases |ids|
  {
    if ids != [] {
      var front, last := ids[..|ids| - 1], ids[|ids| - 1];
      PutIdsLast(ids, front, last);
      HoldsBoth(buf, pos, PutIds(ids), PutIds(front), Little(last.Bits(), 8));
      IdsBack(buf, pos, front);
      IdsBackStep(buf, pos, front, last, pos + |PutIds(front)|);
    }
  }

  /** One more handle behind a list that is read back. */
  lemma IdsBackStep(buf: Bytes, pos: nat, front: seq<JobId>, last: JobId, at: nat)
    requires Holds(buf, at, Little(last.Bits(), 8)) && IdsAt(buf, pos, |front|) == Got(front, at)
    ensures IdsAt(buf, pos, |front| + 1) == Got(front + [last], at + 8)
  {
    IdBack(buf, at, last);
    IdsOneMore(buf, pos, |front|, front, at, last);
  }

  lemma IdsOneMore(buf: Bytes, pos: nat, n: nat, front: seq<JobId>, at: nat, last: JobId)
    requires IdsAt(buf, pos, n) == Got(front, at) && NumberAt(buf, at, 8) == Got(last.Bits(), at + 8)
      && FromBits(last.Bits()) == last
    ensures IdsAt(buf, pos, n + 1) == Got(front + [last], at + 8)
  {}

  lemma IdBack(buf: Bytes, pos: nat, id: JobId)
    requires Holds(buf, pos, Little(id.Bits(), 8))
    ensures NumberAt(buf, pos, 8) == Got(id.Bits(), pos + 8) && FromBits(id.Bits()) == id
  {
    Widths();
    NumberBack(buf, pos, id.Bits(), 8);
    BitsRoundTrip(id);
  }

  /** Reading in sequence: each method is one of the functions above at the present position. */
  class Cursor {
    const buf: Bytes
    var pos: nat

    constructor (buf: Bytes)
      ensures this.buf == buf && pos == 0
    {
      this.buf, pos := buf, 0;
    }

    method TakeBytes(n: nat) returns (r: Read<Bytes>)
      modifies this
      ensures r == Take(buf, old(pos), n) && pos == if r.Got? then r.next else old(pos)
    {
      r := Take(buf, pos, n);
      if r.Got? { pos := r.next; }
    }

    method GetNumber(n: nat) returns (r: Read<nat>)
      modifies this
      ensures r == NumberAt(buf, old(pos), n) && (r.Got? ==> pos == r.next)
    {
      var b := TakeBytes(n);
      r := if b.Bad? then Bad(b.error) else Got(Number(b.value), b.next);
    }

    method GetBytes() returns (r: Read<Bytes>)
      modifies this
      ensures r == BytesAt(buf, old(pos)) && (r.Got? ==> pos == r.next)
    {
      var n := GetNumber(4);
      if n.Bad? { return Bad(n.error); }
      r := TakeBytes(n.value);
    }

    method GetTag(max: nat) returns (r: Read<nat>)
      modifies this
      ensures r == TagAt(buf, old(pos), max) && (r.Got? ==> pos == r.next)
    {
      var at := pos;
      var tag := GetNumber(1);
      if tag.Bad? { return Bad(tag.error); }
      if tag.value > max {
        NumberIsByte(buf, at);
        return Bad(BadTag(tag.value, at));
      }
      r := tag;
    }

    method GetIds(n: nat) returns (r: Read<seq<JobId>>)
      modifies this
      ensures r == IdsAt(buf, old(pos), n) && (r.Got? ==> pos == r.next)
    {
      var ids: seq<JobId> := [];
      for k := 0 to n
        invariant IdsAt(buf, old(pos), k) == Got(ids, pos)
      {
        var at := pos;
        var bits := GetNumber(8);
        if bits.Bad? {
          IdsStop(buf, old(pos), k + 1, n);
          return Bad(bits.error);
        }
        NumberFits(buf, at);
        ids := ids + [FromBits(bits.value)];
      }
      r := Got(ids, pos);
    }
  }

  /** Once a handle cannot be read, neither can the list. */
  lemma {:induction false} IdsStop(buf: Bytes, pos: nat, k: nat, n: nat)
    requires k <= n && IdsAt(buf, pos, k).Bad?
    ensures IdsAt(buf, pos, n) == IdsAt(buf, pos, k)
    decreases n
  {
    if k < n { IdsStop(buf, pos, k, n - 1); }
  }
}
