/** A log file as bytes: how it is written, what any cut of it reads as, and appending after the cut. */
module Logs {
  import opened Domain
  import opened Codec
  import opened Records
  import opened Replay

  /** How one frame's payload becomes a record. */
  type Decoder = Bytes -> Read<Record>

  // ---- frames and images ----

  /** The checksum is whatever function the build links in. */
  type Hash = Bytes -> u32

  const HEADER: nat := 8

  /** How a log file starts. */
  const MAGIC: Bytes := [84, 75, 82, 87, 65, 76, 48, 50]

  /** Length, checksum, payload. */
  function Frame(hash: Hash, payload: Bytes): Bytes {
    Little(|payload|, 4) + (Little(hash(payload), 4) + payload)
  }

  lemma FrameLength(hash: Hash, payload: Bytes)
    ensures |Frame(hash, payload)| == HEADER + |payload|
  {}

  function Frames(hash: Hash, ps: seq<Bytes>): Bytes {
    if ps == [] then [] else Frames(hash, ps[..|ps| - 1]) + Frame(hash, ps[|ps| - 1])
  }

  function Image(hash: Hash, ps: seq<Bytes>): Bytes { MAGIC + Frames(hash, ps) }

  /** Where frame `k` starts in the image. */
  function Boundary(hash: Hash, ps: seq<Bytes>, k: nat): nat
    requires k <= |ps|
  {
    |MAGIC| + |Frames(hash, ps[..k])|
  }

  lemma FramesOneMore(hash: Hash, ps: seq<Bytes>, p: Bytes)
    ensures Frames(hash, ps + [p]) == Frames(hash, ps) + Frame(hash, p)
  {
    var more := ps + [p];
    assert more[..|more| - 1] == ps && more[|more| - 1] == p;
  }

  lemma {:induction false} FramesConcat(hash: Hash, a: seq<Bytes>, b: seq<Bytes>)
    ensures Frames(hash, a + b) == Frames(hash, a) + Frames(hash, b)
    decreases |b|
  {
    if b == [] {
      assert a + b == a;
    } else {
      var front, last := b[..|b| - 1], b[|b| - 1];
      FramesConcat(hash, a, front);
      assert b == front + [last] && a + b == a + front + [last];
      FramesOneMore(hash, a + front, last);
      FramesOneMore(hash, front, last);
      JoinAssociates(Frames(hash, a), Frames(hash, front), Frame(hash, last));
    }
  }

  lemma JoinAssociates(a: Bytes, b: Bytes, c: Bytes)
    ensures a + b + c == a + (b + c)
  {}

  /** Each frame stands at its boundary and ends at the next. */
  lemma FrameStands(hash: Hash, ps: seq<Bytes>, k: nat)
    requires k < |ps|
    ensures Holds(Image(hash, ps), Boundary(hash, ps, k), Frame(hash, ps[k]))
    ensures Boundary(hash, ps, k + 1) == Boundary(hash, ps, k) + |Frame(hash, ps[k])|
  {
    var front, back := ps[..k], ps[k + 1..];
    assert ps[..k + 1] == front + [ps[k]] && ps == ps[..k + 1] + back;
    FramesOneMore(hash, front, ps[k]);
    FramesConcat(hash, ps[..k + 1], back);
    StandsAt(MAGIC, Frames(hash, front), Frame(hash, ps[k]), Frames(hash, back));
  }

  lemma StandsAt(a: Bytes, b: Bytes, e: Bytes, c: Bytes)
    ensures Holds(a + (b + e + c), |a| + |b|, e)
  {
    assert (a + (b + e + c))[|a| + |b|..|a| + |b| + |e|] == e;
  }

  lemma {:induction false} BoundariesRise(hash: Hash, ps: seq<Bytes>, j: nat, k: nat)
    requires j <= k <= |ps|
    ensures Boundary(hash, ps, j) <= Boundary(hash, ps, k) <= |Image(hash, ps)|
    ensures Boundary(hash, ps, |ps|) == |Image(hash, ps)|
    decreases |ps| - j
  {
    assert ps[..|ps|] == ps;
    if j < |ps| {
      FrameStands(hash, ps, j);
      BoundariesRise(hash, ps, j + 1, if k <= j then j + 1 else k);
    }
  }

  // ---- parsing ----

  datatype Scanned = Scanned(records: seq<Record>, stop: nat) | Corrupt(error: CodecError)

  datatype ParseResult = Parsed(records: seq<Record>, tornAt: Option<nat>) | BadMagic | Undecodable(error: CodecError)

  /** The frame at `pos`, if it is whole and its checksum matches. */
  function FrameAt(hash: Hash, bytes: Bytes, pos: nat): (r: Option<Bytes>)
    ensures r.Some? ==> pos + HEADER + |r.value| <= |bytes|
  {
    if pos + HEADER > |bytes| then None
    else
      var len, crc := Number(bytes[pos..pos + 4]), Number(bytes[pos + 4..pos + 8]);
      if pos + HEADER + len > |bytes| then None
      else
        var payload := bytes[pos + HEADER..pos + HEADER + len];
        if hash(payload) == crc then Some(payload) else None
  }

  /** The frames from `pos` on, as far as they are whole. */
  function Scan(hash: Hash, decode: Decoder, bytes: Bytes, pos: nat): Scanned
    decreases if pos <= |bytes| then |bytes| - pos else 0
  {
    match FrameAt(hash, bytes, pos)
    case None => Scanned([], pos)
    case Some(payload) => match decode(payload)
      case Bad(e) => Corrupt(e)
      case Got(r, _) => match Scan(hash, decode, bytes, pos + HEADER + |payload|)
        case Corrupt(e) => Corrupt(e)
        case Scanned(rs, stop) => Scanned([r] + rs, stop)
  }

  function Concluded(s: Scanned, records: seq<Record>, size: nat): ParseResult {
    match s
    case Corrupt(e) => Undecodable(e)
    case Scanned(rs, stop) => Parsed(records + rs, if stop < size then Some(stop) else None)
  }

  function ParseOf(hash: Hash, decode: Decoder, bytes: Bytes): ParseResult {
    if |bytes| < |MAGIC| || bytes[..|MAGIC|] != MAGIC then BadMagic
        else Concluded(Scan(hash, decode, bytes, |MAGIC|), [], |bytes|)
  }

  /** The loop over the frames computes what the recursive reading says. */
  method ParseLog(hash: Hash, decode: Decoder, bytes: Bytes) returns (result: ParseResult)
    ensures result == ParseOf(hash, decode, bytes)
  {
    if |bytes| < |MAGIC| || bytes[..|MAGIC|] != MAGIC { return BadMagic; }
    var records, pos := [], |MAGIC|;
    while pos < |bytes|
      invariant |MAGIC| <= pos <= |bytes|
        && ParseOf(hash, decode, bytes) == Concluded(Scan(hash, decode, bytes, pos), records, |bytes|)
      decreases |bytes| - pos
    {
      var frame := FrameAt(hash, bytes, pos);
      if frame == None { break; }
      var r := decode(frame.value);
      if r.Bad? { return Undecodable(r.error); }
      ScanStep(hash, decode, bytes, records, pos, frame.value, r.value);
      records := records + [r.value];
      pos := pos + HEADER + |frame.value|;
    }
    ScanStops(hash, decode, bytes, records, pos);
    return Parsed(records, if pos < |bytes| then Some(pos) else None);
  }

  lemma ScanStops(hash: Hash, decode: Decoder, bytes: Bytes, records: seq<Record>, pos: nat)
    requires FrameAt(hash, bytes, pos) == None
    ensures Concluded(Scan(hash, decode, bytes, pos), records, |bytes|)
              == Parsed(records, if pos < |bytes| then Some(pos) else None)
  {
    assert records + [] == records;
  }

  lemma ScanStep(hash: Hash, decode: Decoder, bytes: Bytes, records: seq<Record>, pos: nat, payload: Bytes, r: Record)
    requires FrameAt(hash, bytes, pos) == Some(payload) && decode(payload).Got? && decode(payload).value == r
    ensures Concluded(Scan(hash, decode, bytes, pos), records, |bytes|)
              == Concluded(Scan(hash, decode, bytes, pos + HEADER + |payload|), records + [r], |bytes|)
  {
    var rest := Scan(hash, decode, bytes, pos + HEADER + |payload|);
    if rest.Scanned? { assert records + ([r] + rest.records) == records + [r] + rest.records; }
  }

  // ---- print, cut, parse ----

  /** A whole frame is read back as its payload. */
  lemma FrameBack(hash: Hash, bytes: Bytes, pos: nat, p: Bytes)
    requires |p| <= U32_MAX && Holds(bytes, pos, Frame(hash, p))
    ensures FrameAt(hash, bytes, pos) == Some(p)
  {
    HoldsThree(bytes, pos, Little(|p|, 4), Little(hash(p), 4), p);
    NumberBack4(bytes, pos, |p|);
    NumberBack4(bytes, pos + 4, hash(p));
    assert Shown(0);
  }

  /** A frame cut anywhere is no frame: its own length says so. */
  lemma CutFrame(hash: Hash, bytes: Bytes, pos: nat, p: Bytes, n: nat)
    requires |p| <= U32_MAX && Holds(bytes, pos, Frame(hash, p)) && pos <= n < pos + |Frame(hash, p)|
    ensures n <= |bytes| && FrameAt(hash, bytes[..n], pos) == None
  {
    HoldsThree(bytes, pos, Little(|p|, 4), Little(hash(p), 4), p);
    NumberBack4(bytes, pos, |p|);
    assert Shown(0);
    if pos + HEADER <= n { assert bytes[..n][pos..pos + 4] == bytes[pos..pos + 4]; }
  }

  lemma HoldsCut(bytes: Bytes, pos: nat, e: Bytes, n: nat)
    requires Holds(bytes, pos, e) && pos + |e| <= n <= |bytes|
    ensures Holds(bytes[..n], pos, e)
  {
    assert Shown(0);
    assert bytes[..n][pos..pos + |e|] == bytes[pos..pos + |e|];
  }

  /** `k` frames lie wholly inside the first `n` bytes, and no more. */
  ghost predicate Inside(hash: Hash, ps: seq<Bytes>, n: nat, k: nat) {
    k <= |ps| && Boundary(hash, ps, k) <= n <= |Image(hash, ps)| && (k < |ps| ==> n < Boundary(hash, ps, k + 1))
  }

  ghost predicate AllFit(ps: seq<Bytes>) { forall i :: 0 <= i < |ps| ==> |ps[i]| <= U32_MAX }

  /** In a cut image the frames wholly inside the cut are there, and the next one is not. */
  lemma FramesInCut(hash: Hash, ps: seq<Bytes>, n: nat, k: nat, j: nat)
    requires AllFit(ps) && Inside(hash, ps, n, k) && j <= k
    ensures j < k ==> FrameAt(hash, Image(hash, ps)[..n], Boundary(hash, ps, j)) == Some(ps[j])
                      && Boundary(hash, ps, j + 1) == Boundary(hash, ps, j) + HEADER + |ps[j]|
    ensures j == k ==> FrameAt(hash, Image(hash, ps)[..n], Boundary(hash, ps, k)) == None
  {
    var image := Image(hash, ps);
    if j < |ps| {
      FrameStands(hash, ps, j);
      FrameLength(hash, ps[j]);
      if j < k {
        BoundariesRise(hash, ps, j + 1, k);
        HoldsCut(image, Boundary(hash, ps, j), Frame(hash, ps[j]), n);
        FrameBack(hash, image[..n], Boundary(hash, ps, j), ps[j]);
      } else {
        CutFrame(hash, image, Boundary(hash, ps, j), ps[j], n);
      }
    } else {
      BoundariesRise(hash, ps, k, k);
    }
  }

  /** `ps` are the payloads of `rs`. */
  ghost predicate Encodes(decode: Decoder, ps: seq<Bytes>, rs: seq<Record>) {
    |ps| == |rs| && forall i :: 0 <= i < |ps| ==> |ps[i]| <= U32_MAX && decode(ps[i]) == Got(rs[i], |ps[i]|)
  }

  function Payloads(rs: seq<Record>): (ps: seq<Bytes>)
    ensures |ps| == |rs|
  {
    Each(Payload, rs)
  }

  function Each<T, U>(f: T -> U, xs: seq<T>): (ys: seq<U>)
    ensures |ys| == |xs|
  {
    seq(|xs|, i requires 0 <= i < |xs| => f(xs[i]))
  }

  lemma EachConcat<T, U>(f: T -> U, xs: seq<T>, k: nat, more: seq<T>)
    requires k <= |xs|
    ensures Each(f, xs[..k] + more) == Each(f, xs)[..k] + Each(f, more)
  {}

  ghost predicate AllLoggable(rs: seq<Record>) { forall i :: 0 <= i < |rs| ==> Loggable(rs[i]) }

  lemma PayloadsEncode(rs: seq<Record>)
    requires AllLoggable(rs)
    ensures Encodes(Decode, Payloads(rs), rs)
  {
    var ps := Payloads(rs);
    forall i | 0 <= i < |ps| ensures |ps[i]| <= U32_MAX
        && Decode(ps[i]) == Got(rs[i], |ps[i]|) { DecodeRoundTrip(rs[i]); }
  }

  lemma {:induction false} ScanCut(hash: Hash, decode: Decoder, ps: seq<Bytes>, rs: seq<Record>, n: nat, j: nat, k: nat)
    requires Encodes(decode, ps, rs) && Inside(hash, ps, n, k) && j <= k
    ensures Scan(hash, decode, Image(hash, ps)[..n], Boundary(hash, ps, j)) == Scanned(rs[j..k], Boundary(hash, ps, k))
    decreases k - j
  {
    FramesInCut(hash, ps, n, k, j);
    if j < k {
      ScanCut(hash, decode, ps, rs, n, j + 1, k);
      ScanMore(hash, decode, Image(hash, ps)[..n], Boundary(hash, ps, j), ps[j], rs, j, k, Boundary(hash, ps, k));
    }
  }

  /** One frame more in front of what is scanned. */
  lemma ScanMore(hash: Hash, decode: Decoder, bytes: Bytes, pos: nat, p: Bytes, rs: seq<Record>, j: nat, k: nat,
                 stop: nat)
    requires j < k <= |rs| && FrameAt(hash, bytes, pos) == Some(p) && decode(p) == Got(rs[j], |p|)
    requires Scan(hash, decode, bytes, pos + HEADER + |p|) == Scanned(rs[j + 1..k], stop)
    ensures Scan(hash, decode, bytes, pos) == Scanned(rs[j..k], stop)
  {
    assert rs[j..k] == [rs[j]] + rs[j + 1..k];
  }

  /** Cutting a log anywhere after its magic loses exactly the records not wholly inside the cut, and says where. */
  lemma CutParses(hash: Hash, rs: seq<Record>, n: nat, k: nat)
    requires AllLoggable(rs) && Inside(hash, Payloads(rs), n, k)
    ensures ParseOf(hash, Decode, Image(hash, Payloads(rs))[..n])
         == Parsed(rs[..k], if Boundary(hash, Payloads(rs), k) < n then Some(Boundary(hash, Payloads(rs), k)) else None)
  {
    PayloadsEncode(rs);
    CutParsesAs(hash, Decode, Payloads(rs), rs, n, k);
  }

  lemma CutParsesAs(hash: Hash, decode: Decoder, ps: seq<Bytes>, rs: seq<Record>, n: nat, k: nat)
    requires Encodes(decode, ps, rs) && Inside(hash, ps, n, k)
    ensures ParseOf(hash, decode, Image(hash, ps)[..n])
              == Parsed(rs[..k], if Boundary(hash, ps, k) < n then Some(Boundary(hash, ps, k)) else None)
  {
    assert ps[..0] == [];
    assert Boundary(hash, ps, 0) == |MAGIC|;
    BoundariesRise(hash, ps, 0, k);
    MagicInCut(Frames(hash, ps), n);
    ScanCut(hash, decode, ps, rs, n, 0, k);
    assert [] + rs[0..k] == rs[..k];
  }

  lemma MagicInCut(frames: Bytes, n: nat)
    requires |MAGIC| <= n <= |MAGIC + frames|
    ensures (MAGIC + frames)[..n][..|MAGIC|] == MAGIC
  {}

  /** Every cut after the magic falls inside exactly one frame's reach. */
  lemma {:induction false} SomeInside(hash: Hash, ps: seq<Bytes>, n: nat, k: nat) returns (found: nat)
    requires k <= |ps| && Boundary(hash, ps, k) <= n <= |Image(hash, ps)|
    ensures Inside(hash, ps, n, found) && k <= found
    decreases |ps| - k
  {
    if k < |ps| && Boundary(hash, ps, k + 1) <= n {
      found := SomeInside(hash, ps, n, k + 1);
    } else {
      found := k;
    }
  }

  /** A log shorter than its magic is refused, whatever it held. */
  lemma CutMagicRefused(hash: Hash, rs: seq<Record>, n: nat)
    requires n < |MAGIC|
    ensures n <= |Image(hash, Payloads(rs))| && ParseOf(hash, Decode, Image(hash, Payloads(rs))[..n]) == BadMagic
  {}

  /** Printing and parsing a whole log is the identity. */
  lemma ParseOfImage(hash: Hash, rs: seq<Record>)
    requires AllLoggable(rs)
    ensures ParseOf(hash, Decode, Image(hash, Payloads(rs))) == Parsed(rs, None)
  {
    var ps := Payloads(rs);
    PayloadsEncode(rs);
    BoundariesRise(hash, ps, |ps|, |ps|);
    var n := |Image(hash, ps)|;
    CutParsesAs(hash, Decode, ps, rs, n, |ps|);
    assert Image(hash, ps)[..n] == Image(hash, ps) && rs[..|rs|] == rs;
  }

  lemma CutAndAppend(m: Bytes, f: Bytes, b: Bytes, g: Bytes, whole: Bytes, joined: Bytes)
    requires whole == m + (f + b) && joined == m + (f + g)
    ensures |m| + |f| <= |whole| && whole[..|m| + |f|] + g == joined
  {
    assert whole[..|m| + |f|] == m + f;
  }

  /** `f` is the bytes of the frames kept, `b` of those cut off, `g` of those appended. */
  lemma ImageCut(hash: Hash, ps: seq<Bytes>, joined: seq<Bytes>, f: Bytes, b: Bytes, g: Bytes)
    requires Frames(hash, ps) == f + b && Frames(hash, joined) == f + g
    ensures |MAGIC| + |f| <= |Image(hash, ps)| && Image(hash, ps)[..|MAGIC| + |f|] + g == Image(hash, joined)
  {
    CutAndAppend(MAGIC, f, b, g, MAGIC + Frames(hash, ps), MAGIC + Frames(hash, joined));
  }

  lemma KeepFrontAndAppend(hash: Hash, ps: seq<Bytes>, k: nat, front: seq<Bytes>, back: seq<Bytes>, tail: seq<Bytes>,
                           joined: seq<Bytes>)
    requires k <= |ps| && front == ps[..k] && ps == front + back && joined == front + tail
    ensures Boundary(hash, ps, k) <= |Image(hash, ps)|
      && Image(hash, ps)[..Boundary(hash, ps, k)] + Frames(hash, tail) == Image(hash, joined)
  {
    FramesConcat(hash, front, back);
    FramesConcat(hash, front, tail);
    ImageCut(hash, ps, joined, Frames(hash, front), Frames(hash, back), Frames(hash, tail));
  }

  lemma Rejoin(ps: seq<Bytes>, k: nat)
    requires k <= |ps|
    ensures ps == ps[..k] + ps[k..]
  {}

  lemma KeepAndAppend(hash: Hash, ps: seq<Bytes>, k: nat, tail: seq<Bytes>, joined: seq<Bytes>)
    requires k <= |ps| && joined == ps[..k] + tail
    ensures Boundary(hash, ps, k) <= |Image(hash, ps)|
      && Image(hash, ps)[..Boundary(hash, ps, k)] + Frames(hash, tail) == Image(hash, joined)
  {
    Rejoin(ps, k);
    KeepFrontAndAppend(hash, ps, k, ps[..k], ps[k..], tail, joined);
  }

  /** Truncating at the reported boundary and appending more parses to the prefix followed by the new records. */
  lemma AppendAfterTruncate(hash: Hash, rs: seq<Record>, k: nat, more: seq<Record>)
    requires AllLoggable(rs) && AllLoggable(more) && k <= |rs|
    ensures Boundary(hash, Payloads(rs), k) <= |Image(hash, Payloads(rs))|
    ensures ParseOf(hash, Decode,
              Image(hash, Payloads(rs))[..Boundary(hash, Payloads(rs), k)] + Frames(hash, Payloads(more)))
              == Parsed(rs[..k] + more, None)
  {
    KeepAndAppend(hash, Payloads(rs), k, Payloads(more),
                  Payloads(rs[..k] + more)) by { EachConcat(Payload, rs, k, more); }
    ParseOfImage(hash, rs[..k] + more);
  }

  // ---- whole logs of records ----

  function Framed(hash: Hash, rs: seq<Record>): Bytes { Frames(hash, Payloads(rs)) }

  /** The file that holds exactly `rs`. */
  function LogImage(hash: Hash, rs: seq<Record>): Bytes { Image(hash, Payloads(rs)) }

  lemma LogImageEmpty(hash: Hash)
    ensures LogImage(hash, []) == MAGIC
  {
    assert MAGIC + [] == MAGIC;
  }

  lemma LogImageGrows(hash: Hash, rs: seq<Record>, more: seq<Record>)
    ensures LogImage(hash, rs) + Framed(hash, more) == LogImage(hash, rs + more)
  {
    EachConcat(Payload, rs, |rs|, more);
    assert rs[..|rs|] == rs && Payloads(rs)[..|rs|] == Payloads(rs);
    FramesConcat(hash, Payloads(rs), Payloads(more));
    JoinAssociates(MAGIC, Framed(hash, rs), Framed(hash, more));
  }

  /** What is left of a file once the torn tail `parse_log` reports is cut off. */
  function Mended(bytes: Bytes, tornAt: Option<nat>): Bytes {
    if tornAt.Some? && tornAt.value <= |bytes| then bytes[..tornAt.value] else bytes
  }

  lemma CutPayloads(rs: seq<Record>, k: nat)
    requires k <= |rs|
    ensures Payloads(rs[..k]) == Payloads(rs)[..k]
  {
    EachConcat(Payload, rs, k, []);
    assert rs[..k] + [] == rs[..k];
  }

  lemma BoundaryIsSize(hash: Hash, rs: seq<Record>, k: nat)
    requires k <= |rs|
    ensures |LogImage(hash, rs[..k])| == Boundary(hash, Payloads(rs), k) <= |LogImage(hash, rs)|
    ensures LogImage(hash, rs)[..Boundary(hash, Payloads(rs), k)] == LogImage(hash, rs[..k])
  {
    var ps := Payloads(rs);
    CutPayloads(rs, k);
    KeepAndAppend(hash, ps, k, [], ps[..k]) by { assert ps[..k] + [] == ps[..k]; }
    assert Image(hash, ps)[..Boundary(hash, ps, k)] + [] == Image(hash, ps)[..Boundary(hash, ps, k)];
  }

  /** A log cut anywhere behind its first `j` records still holds those, reads as a prefix, and is mended to it. */
  lemma TornLog(hash: Hash, rs: seq<Record>, j: nat, bytes: Bytes) returns (k: nat)
    requires AllLoggable(rs) && j <= |rs|
    requires |LogImage(hash, rs[..j])| <= |bytes| <= |LogImage(hash, rs)| && bytes == LogImage(hash, rs)[..|bytes|]
    ensures j <= k <= |rs|
    ensures ParseOf(hash, Decode, bytes).Parsed? && ParseOf(hash, Decode, bytes).records == rs[..k]
    ensures Mended(bytes, ParseOf(hash, Decode, bytes).tornAt) == LogImage(hash, rs[..k])
  {
    var n := |bytes|;
    BoundaryIsSize(hash, rs, j);
    k := SomeInside(hash, Payloads(rs), n, j);
    CutParses(hash, rs, n, k);
    BoundaryIsSize(hash, rs, k);
    CutTwice(LogImage(hash, rs), n, Boundary(hash, Payloads(rs), k));
  }

  lemma CutTwice(whole: Bytes, n: nat, b: nat)
    requires b <= n <= |whole|
    ensures whole[..n][..b] == whole[..b] && (b == n ==> whole[..n] == whole[..b])
  {}
}
