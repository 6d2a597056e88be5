/** What a COMPLETE verdict means, for whatever datagrams arrived. */
module Verdicts {
  import opened Crc32
  import opened Protocol
  import opened Ordering
  import opened RunFormat
  import opened ShotModel
  import opened Tiling

  /** Packets of different sequences, among them the ones the shot's ends came from. */
  ghost predicate Held(s: Shot) {
    && Distinct(s.packets)
    && (s.info.Info? ==> Datagram(s.info.header, InfoObject(s.info.info)) in s.packets)
    && (s.end.End? ==> Datagram(s.end.header, EndObject(s.end.end)) in s.packets)
  }

  /** Unless it is known to be wrong, a shot holds one STREAM_INFO, one SHOT_END and DATA packets. */
  predicate Announced(s: Shot) {
    s.issues.conflict || s.issues.protocol || forall p | p in s.packets :: Expected(p, s.info, s.end)
  }

  predicate Expected(p: Datagram, info: Info, end: End) {
    match p.payload
    case InfoObject(i) => info == Info(p.header, i)
    case EndObject(e) => end == End(p.header, e)
    case Raw(kind, _) => kind == DataPacket
  }

  /** What ingesting keeps of every shot. */
  ghost predicate ShotOk(s: Shot) {
    Belongs(s) && Announced(s)
  }

  ghost predicate Belongs(s: Shot) {
    && Held(s)
    && (forall p | p in s.packets :: p.header.shotId == s.shotId)
    && s.firstReceiveNs <= s.lastReceiveNs
  }

  lemma {:induction false} DataMembers(format: U16, ps: seq<Datagram>, d: Datagram)
    ensures d in Data(format, ps) <==> d in ps && Admissible(format, d)
  {
    if ps != [] {
      DataMembers(format, ps[..|ps| - 1], d);
      assert ps == ps[..|ps| - 1] + [ps[|ps| - 1]];
    }
  }

  lemma {:induction false} TotalAppend(a: seq<Datagram>, b: seq<Datagram>)
    ensures SampleTotal(a + b) == SampleTotal(a) + SampleTotal(b)
  {
    if b == [] {
      assert a + b == a;
    } else {
      assert (a + b)[..|a + b| - 1] == a + b[..|b| - 1];
      TotalAppend(a, b[..|b| - 1]);
    }
  }

  lemma {:induction false} TotalInsert(o: Order, d: Datagram, s: seq<Datagram>)
    ensures SampleTotal(Insert(o, d, s)) == SampleTotal(s) + d.header.sampleCount
  {
    if s == [] || Before(o, d, s[0]) {
      TotalAppend([d], s);
      assert [d] + s == if s == [] then [d] else [d] + s;
    } else {
      TotalInsert(o, d, s[1..]);
      TotalAppend([s[0]], s[1..]);
      assert s == [s[0]] + s[1..];
      TotalAppend([s[0]], Insert(o, d, s[1..]));
    }
  }

  /** Sorting does not change how many samples there are. */
  lemma {:induction false} TotalSort(o: Order, s: seq<Datagram>)
    ensures SampleTotal(Sort(o, s)) == SampleTotal(s)
  {
    if s != [] {
      TotalSort(o, s[1..]);
      TotalInsert(o, s[0], Sort(o, s[1..]));
      TotalAppend([s[0]], s[1..]);
      assert s == [s[0]] + s[1..];
    }
  }

  lemma DataFilled(format: U16, ps: seq<Datagram>)
    ensures Filled(Data(format, ps)) && Filled(Sort(ByFrame, Data(format, ps)))
    ensures var data := Data(format, ps);
      |Payloads(data)| == |Payloads(Sort(ByFrame, data))| == 4 * SampleTotal(data)
  {
    var data := Data(format, ps);
    var placed := Sort(ByFrame, data);
    SameMembers(data, placed);
    forall d | d in data
      ensures Admissible(format, d)
    {
      DataMembers(format, ps, d);
    }
    AllFilled(format, data);
    AllFilled(format, placed);
    TotalSort(ByFrame, data);
    PayloadSize(data);
    PayloadSize(placed);
  }

  lemma AllFilled(format: U16, ps: seq<Datagram>)
    requires forall d | d in ps :: Admissible(format, d)
    ensures Filled(ps)
  {
    forall i | 0 <= i < |ps|
      ensures ps[i].payload.Raw? && ps[i].header.sampleCount > 0
           && |ps[i].payload.bytes| == 4 * ps[i].header.sampleCount
    {
      assert Admissible(format, ps[i]);
    }
  }

  const SIXTEEN_GIB := 0x4_0000_0000

  /** The published packets of a COMPLETE shot: all its DATA packets, tiling frames 0, 1, ... */
  ghost predicate WellFormed(s: Shot, placed: seq<Datagram>) {
    && Bounded(s) && AbsentOf(s) == {}
    && s.info.info.frameSamples > 0
    && (forall d :: d in placed <==> d in s.packets && d.Type() == DataPacket)
    && Distinct(placed)
    && Tiles(placed, s.info.info.frameSamples) && Filled(placed) && Small(placed)
    && FrameCount(placed, |placed|) == s.end.end.totalFrames
    && |placed| == s.end.end.totalDataPackets
    && |Payloads(placed)| == s.end.end.payloadBytes == 4 * (s.end.end.totalFrames * s.info.info.frameSamples)
    && Checksum(Payloads(placed)) == s.end.end.payloadCrc32
  }

  /** The clauses of a verdict without issues. */
  lemma NoIssues(c: Context, s: Shot)
    requires !Judge(c, s).issues.Any()
    ensures var v := Judge(c, s);
      && Missing(s) == 0 && s.info.Info? && s.end.End? && !BadProfile(s)
      && (forall d | d in Sort(BySequence, s.packets) :: !Malformed(Format(s), d))
      && v.data == Data(Format(s), Sort(BySequence, s.packets)) && v.placed == Sort(ByFrame, v.data)
      && v.data != [] && |Payloads(v.data)| <= c.maxShotBytes
      && Tiles(v.placed, FrameSamples(s))
      && TotalsOk(s.end.end, v.data, Frames(v) % 0x1_0000_0000)
      && s.end.end.payloadCrc32 == Checksum(Payloads(v.placed))
      && TimestampsOk(v.data) && SourceFlagsOf(v.data) == SourceFlags(false, false, false) && v.missing == 0
  {
    hide Sort, Data, Tiles, TotalsOk, Malformed, BadProfile, OtherProfile, TimestampsOk, SourceFlagsOf, FrameCount,
         Missing, Payloads, Checksum, EndFlagsOk;
  }

  lemma {:induction false} DataDistinct(format: U16, ps: seq<Datagram>)
    requires Distinct(ps)
    ensures Distinct(Data(format, ps))
  {
    if ps != [] {
      var init, d := ps[..|ps| - 1], ps[|ps| - 1];
      DataDistinct(format, init);
      forall x | x in Data(format, init)
        ensures x.Sequence() != d.Sequence()
      {
        DataMembers(format, init, x);
      }
    }
  }

  /** The published packets are exactly the shot's DATA packets. */
  lemma CompletePackets(s: Shot, sorted: seq<Datagram>, data: seq<Datagram>, placed: seq<Datagram>)
    requires ShotOk(s)
    requires sorted == Sort(BySequence, s.packets)
    requires data == Data(Format(s), sorted) && placed == Sort(ByFrame, data)
    requires forall d | d in sorted :: !Malformed(Format(s), d)
    ensures forall d :: d in placed <==> d in s.packets && d.Type() == DataPacket
    ensures Distinct(placed)
  {
    hide Sort, Data;
    DistinctPermutes(s.packets, sorted);
    DataDistinct(Format(s), sorted);
    DistinctPermutes(data, placed);
    SameMembers(s.packets, sorted);
    SameMembers(data, placed);
    forall d
      ensures d in placed <==> d in s.packets && d.Type() == DataPacket
    {
      DataMembers(Format(s), sorted, d);
    }
  }

  /** Every shot without issues publishes all its DATA bytes, and some. */
  lemma CompleteBytes(c: Context, s: Shot)
    requires !Judge(c, s).issues.Any()
    ensures |Payloads(Judge(c, s).placed)| == |Payloads(Judge(c, s).data)| > 0
  {
    NoIssues(c, s);
    hide *;
    var v := Judge(c, s);
    BytesOf(Format(s), Sort(BySequence, s.packets), v.data, v.placed);
  }

  lemma BytesOf(format: U16, sorted: seq<Datagram>, data: seq<Datagram>, placed: seq<Datagram>)
    requires data == Data(format, sorted) && data != [] && placed == Sort(ByFrame, data)
    ensures |Payloads(placed)| == |Payloads(data)| > 0
  {
    hide Data, Sort, SampleTotal, Payloads;
    DataFilled(format, sorted);
    SomeSamples(data);
  }

  /** Shots whose samples stay below 16 GiB: the 32-bit sample offsets cannot wrap. */
  lemma CompleteShape(c: Context, s: Shot)
    requires ShotOk(s) && !Judge(c, s).issues.Any()
    requires |Payloads(Judge(c, s).data)| < SIXTEEN_GIB
    ensures WellFormed(s, Judge(c, s).placed)
  {
    NoIssues(c, s);
    hide *;
    NothingAbsent(s);
    var v := Judge(c, s);
    ShapeOf(s, Sort(BySequence, s.packets), v.data, v.placed);
  }

  lemma ShapeOf(s: Shot, sorted: seq<Datagram>, data: seq<Datagram>, placed: seq<Datagram>)
    requires ShotOk(s) && SequenceIsComplete(s) && !BadProfile(s)
    requires sorted == Sort(BySequence, s.packets)
    requires data == Data(Format(s), sorted) && placed == Sort(ByFrame, data)
    requires forall d | d in sorted :: !Malformed(Format(s), d)
    requires data != [] && |Payloads(data)| < SIXTEEN_GIB
    requires Tiles(placed, FrameSamples(s))
    requires TotalsOk(s.end.end, data, FrameCount(placed, |placed|) % 0x1_0000_0000)
    requires s.end.end.payloadCrc32 == Checksum(Payloads(placed))
    ensures WellFormed(s, placed)
  {
    hide ShotOk, AbsentOf, Data, Sort, Tiles, Small, Malformed, Checksum, FrameCount, Distinct, Filled, SampleTotal,
         Payloads;
    CompletePackets(s, sorted, data, placed);
    DataFilled(Format(s), sorted);
    SomeSamples(data);
    TotalSort(ByFrame, data);
    SmallTotal(placed);
    TotalSamples(placed, s.info.info.frameSamples);
    SameCount(data, placed);
  }

  lemma SameCount(a: seq<Datagram>, b: seq<Datagram>)
    requires b == Sort(ByFrame, a)
    ensures |a| == |b|
  {
  }

  lemma SmallTotal(ps: seq<Datagram>)
    requires 4 * SampleTotal(ps) < SIXTEEN_GIB
    ensures Small(ps)
  {
  }

  lemma SomeSamples(ps: seq<Datagram>)
    requires Filled(ps) && ps != []
    ensures SampleTotal(ps) > 0
  {
  }

  lemma NothingAbsent(s: Shot)
    requires Missing(s) == 0
    ensures SequenceIsComplete(s)
  {
  }
}
