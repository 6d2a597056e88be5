/** What the recorder's frame walk guarantees: packets that pass it cover every sample of frames
    0, 1, ... exactly once, and their payloads in that order are the frames' samples. */
module Tiling {
  import opened Crc32
  import opened Protocol
  import opened ShotModel

  /** DATA packets that carry four bytes for each of at least one sample. */
  predicate Filled(ps: seq<Datagram>) {
    forall i | 0 <= i < |ps| ::
      && ps[i].payload.Raw? && ps[i].header.sampleCount > 0
      && |ps[i].payload.bytes| == 4 * ps[i].header.sampleCount
  }

  /** The samples before packet `i`. */
  function SamplesBefore(ps: seq<Datagram>, i: nat): nat
    requires i <= |ps|
  {
    SampleTotal(ps[..i])
  }

  lemma {:induction false} BeforeNext(ps: seq<Datagram>, i: nat)
    requires i < |ps|
    ensures SamplesBefore(ps, i + 1) == SamplesBefore(ps, i) + ps[i].header.sampleCount
  {
    assert ps[..i + 1][..i] == ps[..i];
  }

  lemma {:induction false} BeforeMonotone(ps: seq<Datagram>, i: nat, j: nat)
    requires i <= j <= |ps|
    ensures SamplesBefore(ps, i) <= SamplesBefore(ps, j)
    ensures Filled(ps) && i < j ==> SamplesBefore(ps, i) < SamplesBefore(ps, j)
    decreases j - i
  {
    if i < j {
      BeforeMonotone(ps, i, j - 1);
      BeforeNext(ps, j - 1);
    }
  }

  lemma BeforeAll(ps: seq<Datagram>)
    ensures SamplesBefore(ps, |ps|) == SampleTotal(ps)
  {
    assert ps[..|ps|] == ps;
  }

  /** Small enough that no 32-bit offset wraps. */
  predicate Small(ps: seq<Datagram>) {
    SampleTotal(ps) <= U32_MAX
  }

  /** Packet `i` starts where the samples before it end: at its offset in its frame. */
  lemma {:induction false} Placement(ps: seq<Datagram>, frameSamples: U32, i: nat)
    requires Tiles(ps, frameSamples) && Filled(ps) && Small(ps) && i < |ps|
    ensures SamplesBefore(ps, i) == ps[i].header.frameId * frameSamples + ps[i].header.sampleOffset
    ensures EndOffset(ps[i]) == ps[i].header.sampleOffset + ps[i].header.sampleCount
  {
    if i == 0 {
      assert ps[..0] == [];
      assert Fits(ps, 0, frameSamples);
    } else {
      Placement(ps, frameSamples, i - 1);
      assert Fits(ps, i, frameSamples);
      BeforeNext(ps, i - 1);
      NextFrameStart(ps[i - 1].header.frameId, frameSamples);
    }
    BeforeNext(ps, i);
    BeforeMonotone(ps, i + 1, |ps|);
    BeforeAll(ps);
    OffsetBelow(ps[i].header.frameId, frameSamples, ps[i].header.sampleOffset);
  }

  lemma NextFrameStart(f: nat, n: nat)
    ensures (f + 1) * n == f * n + n
  {
  }

  lemma OffsetBelow(f: nat, n: nat, o: nat)
    ensures o <= f * n + o
  {
  }

  /** No packet reaches past its frame. */
  lemma {:induction false} InsideFrame(ps: seq<Datagram>, frameSamples: U32, i: nat)
    requires Tiles(ps, frameSamples) && Filled(ps) && Small(ps) && i < |ps|
    ensures ps[i].header.sampleOffset + ps[i].header.sampleCount <= frameSamples
    decreases |ps| - i
  {
    Placement(ps, frameSamples, i);
    if i + 1 < |ps| {
      InsideFrame(ps, frameSamples, i + 1);
      assert Fits(ps, i + 1, frameSamples);
    }
  }

  /** The packet that starts a frame is marked so. */
  lemma StartMarked(ps: seq<Datagram>, frameSamples: U32, i: nat)
    requires Tiles(ps, frameSamples) && Filled(ps) && Small(ps) && i < |ps| && ps[i].header.sampleOffset == 0
    ensures ps[i].header.flags.frameStart
  {
    assert Fits(ps, i, frameSamples);
    if i > 0 && ps[i].header.frameId == ps[i - 1].header.frameId {
      Placement(ps, frameSamples, i - 1);
    }
  }

  /** The packets are those of frames 0 to `FrameCount` - 1, all of them full. */
  lemma {:induction false} FramesCounted(ps: seq<Datagram>, frameSamples: U32, i: nat)
    requires Tiles(ps, frameSamples) && i < |ps|
    ensures FrameCount(ps, i + 1) == ps[i].header.frameId + 1
  {
    assert Fits(ps, i, frameSamples);
    if i > 0 {
      FramesCounted(ps, frameSamples, i - 1);
    }
  }

  lemma TotalSamples(ps: seq<Datagram>, frameSamples: U32)
    requires Tiles(ps, frameSamples) && Filled(ps) && Small(ps)
    ensures SampleTotal(ps) == FrameCount(ps, |ps|) * frameSamples
    ensures FrameCount(ps, |ps|) <= U32_MAX
  {
    if ps != [] {
      var last := |ps| - 1;
      Placement(ps, frameSamples, last);
      FramesCounted(ps, frameSamples, last);
      BeforeNext(ps, last);
      BeforeAll(ps);
      NextFrameStart(ps[last].header.frameId, frameSamples);
      InsideFrame(ps, frameSamples, last);
      assert ps[last].header.sampleCount > 0;
      AtLeast(FrameCount(ps, |ps|), frameSamples);
    }
  }

  lemma AtLeast(f: nat, n: nat)
    requires n > 0
    ensures f <= f * n
  {
  }

  /** Packet `i` carries sample `offset` of `frame`. */
  predicate Carries(d: Datagram, frame: nat, offset: nat) {
    d.header.frameId == frame && d.header.sampleOffset <= offset < d.header.sampleOffset + d.header.sampleCount
  }

  /** Every sample of every counted frame is carried by some packet. */
  lemma Carrier(ps: seq<Datagram>, frameSamples: U32, frame: nat, offset: nat) returns (i: nat)
    requires Tiles(ps, frameSamples) && Filled(ps) && Small(ps)
    requires frame < FrameCount(ps, |ps|) && offset < frameSamples
    ensures i < |ps| && Carries(ps[i], frame, offset)
  {
    hide Tiles, Filled, Small, FrameCount, SamplesBefore;
    var x := frame * frameSamples + offset;
    TotalSamples(ps, frameSamples);
    IndexBelow(frame, offset, FrameCount(ps, |ps|), frameSamples);
    BeforeAll(ps);
    NotEmpty(ps);
    i := Locate(ps, x, |ps|);
    CarrierAt(ps, frameSamples, frame, offset, i);
  }

  lemma NotEmpty(ps: seq<Datagram>)
    ensures SampleTotal(ps) > 0 ==> ps != []
  {
  }

  lemma CarrierAt(ps: seq<Datagram>, frameSamples: U32, frame: nat, offset: nat, i: nat)
    requires Tiles(ps, frameSamples) && Filled(ps) && Small(ps)
    requires i < |ps| && offset < frameSamples
    requires SamplesBefore(ps, i) <= frame * frameSamples + offset < SamplesBefore(ps, i + 1)
    ensures Carries(ps[i], frame, offset)
  {
    hide Tiles, Filled, Small, SamplesBefore;
    Placement(ps, frameSamples, i);
    InsideFrame(ps, frameSamples, i);
    BeforeNext(ps, i);
    var h := ps[i].header;
    var extra := frame * frameSamples + offset - SamplesBefore(ps, i);
    SameFrame(frame, offset, h.frameId, h.sampleOffset, extra, frameSamples);
  }

  lemma IndexBelow(f: nat, o: nat, count: nat, n: nat)
    requires f < count && o < n
    ensures f * n + o < count * n
  {
    assert (f + 1) * n <= count * n;
  }

  /** Two ways of writing a sample's shot-wide index agree. */
  lemma SameFrame(f: nat, o: nat, g: nat, p: nat, extra: nat, n: nat)
    requires o < n && p + extra < n
    requires f * n + o == g * n + p + extra
    ensures f == g && o == p + extra
  {
    assert f < g ==> (f + 1) * n <= g * n;
    assert g < f ==> (g + 1) * n <= f * n;
  }

  lemma {:induction false} Locate(ps: seq<Datagram>, x: nat, n: nat) returns (i: nat)
    requires 0 < n <= |ps| && x < SamplesBefore(ps, n)
    ensures i < n && SamplesBefore(ps, i) <= x < SamplesBefore(ps, i + 1)
  {
    assert ps[..0] == [] && SamplesBefore(ps, 0) == 0;
    if SamplesBefore(ps, n - 1) <= x {
      i := n - 1;
    } else {
      i := Locate(ps, x, n - 1);
    }
  }

  lemma NotTwice(ps: seq<Datagram>, frameSamples: U32, frame: nat, offset: nat, i: nat, j: nat)
    requires Tiles(ps, frameSamples) && Filled(ps) && Small(ps)
    requires i < j < |ps|
    ensures !(Carries(ps[i], frame, offset) && Carries(ps[j], frame, offset))
  {
    Placement(ps, frameSamples, i);
    Placement(ps, frameSamples, j);
    BeforeNext(ps, i);
    BeforeMonotone(ps, i + 1, j);
  }

  /** Every sample of every counted frame is carried by exactly one packet. */
  lemma CarriedOnce(ps: seq<Datagram>, frameSamples: U32, frame: nat, offset: nat) returns (i: nat)
    requires Tiles(ps, frameSamples) && Filled(ps) && Small(ps)
    requires frame < FrameCount(ps, |ps|) && offset < frameSamples
    ensures i < |ps| && forall j | 0 <= j < |ps| :: Carries(ps[j], frame, offset) <==> j == i
  {
    hide Tiles, Filled, Small, FrameCount, Carries;
    i := Carrier(ps, frameSamples, frame, offset);
    forall j | 0 <= j < |ps| && j != i
      ensures !Carries(ps[j], frame, offset)
    {
      if j < i {
        NotTwice(ps, frameSamples, frame, offset, j, i);
      } else {
        NotTwice(ps, frameSamples, frame, offset, i, j);
      }
    }
  }

  // ----- bytes -----

  lemma {:induction false} PayloadSize(ps: seq<Datagram>)
    requires Filled(ps)
    ensures |Payloads(ps)| == 4 * SampleTotal(ps)
  {
    if ps != [] {
      PayloadSize(ps[..|ps| - 1]);
    }
  }

  lemma {:induction false} PayloadsConcat(a: seq<Datagram>, b: seq<Datagram>)
    ensures Payloads(a + b) == Payloads(a) + Payloads(b)
  {
    if b == [] {
      assert a + b == a;
    } else {
      assert (a + b)[..|a + b| - 1] == a + b[..|b| - 1];
      PayloadsConcat(a, b[..|b| - 1]);
    }
  }

  /** The bytes of packet `i` sit where its samples belong. */
  lemma PayloadAt(ps: seq<Datagram>, i: nat)
    requires Filled(ps) && i < |ps|
    ensures 4 * SamplesBefore(ps, i + 1) <= |Payloads(ps)|
    ensures SamplesBefore(ps, i + 1) == SamplesBefore(ps, i) + ps[i].header.sampleCount
    ensures Payloads(ps)[4 * SamplesBefore(ps, i)..4 * SamplesBefore(ps, i + 1)] == ps[i].payload.bytes
  {
    BeforeNext(ps, i);
    PayloadSize(ps[..i]);
    PayloadSize(ps[..i + 1]);
    assert ps[..i + 1][..i] == ps[..i];
    assert Payloads(ps[..i + 1]) == Payloads(ps[..i]) + ps[i].payload.bytes;
    PayloadsConcat(ps[..i + 1], ps[i + 1..]);
    assert ps == ps[..i + 1] + ps[i + 1..];
  }

  /** The four bytes of sample `k` of a byte string. */
  function SampleBytes(bytes: seq<Byte>, k: nat): seq<Byte> {
    if 4 * k + 4 <= |bytes| then bytes[4 * k..4 * k + 4] else []
  }

  /** Sample `offset` of `frame` is published at its place, from the packet that carries it. */
  lemma SampleSource(ps: seq<Datagram>, frameSamples: U32, i: nat, frame: nat, offset: nat)
    requires Tiles(ps, frameSamples) && Filled(ps) && Small(ps)
    requires i < |ps| && Carries(ps[i], frame, offset)
    ensures |SampleBytes(Payloads(ps), frame * frameSamples + offset)| == 4
    ensures SampleBytes(Payloads(ps), frame * frameSamples + offset)
         == SampleBytes(ps[i].payload.bytes, offset - ps[i].header.sampleOffset)
  {
    hide Tiles, Small, SamplesBefore, Payloads;
    Placement(ps, frameSamples, i);
    PayloadAt(ps, i);
    Slice(Payloads(ps), SamplesBefore(ps, i), ps[i].payload.bytes, offset - ps[i].header.sampleOffset);
  }

  lemma Slice(all: seq<Byte>, n: nat, part: seq<Byte>, k: nat)
    requires 4 * n + |part| <= |all| && all[4 * n..4 * n + |part|] == part
    requires 4 * k + 4 <= |part|
    ensures SampleBytes(all, n + k) == SampleBytes(part, k)
    ensures |SampleBytes(part, k)| == 4
  {
    SliceOfSlice(all, 4 * n, 4 * n + |part|, 4 * k, 4 * k + 4);
  }

  lemma SliceOfSlice(s: seq<Byte>, a: nat, b: nat, from: nat, to: nat)
    requires a <= b <= |s| && from <= to <= b - a
    ensures s[a..b][from..to] == s[a + from..a + to]
  {
    var part, whole := s[a..b][from..to], s[a + from..a + to];
    assert |part| == |whole|;
    forall j | 0 <= j < |part|
      ensures part[j] == whole[j]
    {
      assert part[j] == s[a..b][from + j] == s[a + from + j];
    }
  }
}
