/** host/analyzer/qcrate_run.py: `RunIndex`, the append-aware catalog with a bounded cache, proved to agree with
    a reading of the whole run. */
module RunIndex {
  import opened Protocol
  import opened RunFormat
  import opened RunCatalog

  const CHUNK := 4096

  lemma SnocSums(rs: seq<IndexRecord>, r: IndexRecord)
    ensures var h := HealthOf(rs);
      HealthOf(rs + [r]) == Health(
        h.complete + Of(r, Complete), h.incomplete + Of(r, Incomplete),
        h.skipped + (if rs == [] then 0 else Gap(rs[|rs| - 1], r)), h.sampleBytes + Of(r, SampleBytes),
        h.datagrams + r.datagrams, h.duplicates + r.duplicatePackets, h.reordered + r.reorderedPackets,
        h.missing + r.missingPackets)
  {
    hide Sum, Skipped, Gap;
    SkippedNext(rs, r);
    SumNext(rs, r, Complete);
    SumNext(rs, r, Incomplete);
    SumNext(rs, r, SampleBytes);
    SumNext(rs, r, Datagrams);
    SumNext(rs, r, Duplicates);
    SumNext(rs, r, Reordered);
    SumNext(rs, r, Missing);
  }

  /** Both files as far as some records have been read from them. */
  ghost predicate Holds(f: Files, rs: seq<IndexRecord>) {
    |rs| <= |f.records| && forall i | 0 <= i < |rs| :: f.records[i] == Some(rs[i])
  }

  class Catalog {
    const cacheLimit: nat
    var cache: map<nat, IndexRecord>
    var order: seq<nat> // least recently used first
    var identified: bool
    var recordCount: nat
    var scannedCount: nat
    var previousShotId: Option<U64>
    var previousEnd: nat
    var health: Health
    ghost var scanned: seq<IndexRecord>
    ghost var sampleBytes: nat

    /** The cache remembers only records there are, each under its ordinal, and knows the order of their use. */
    ghost predicate Remembers(rs: seq<IndexRecord>)
      reads this`cache, this`order
    {
      && (forall k | k in cache :: k < |rs| && cache[k] == rs[k])
      && (forall i, j | 0 <= i < j < |order| :: order[i] != order[j])
      && (forall k :: k in order <==> k in cache)
    }

    ghost predicate CacheOk(rs: seq<IndexRecord>)
      reads this`cache, this`order
    {
      Remembers(rs) && |order| <= cacheLimit
    }

    /** The running figures are those of the records scanned. */
    ghost predicate FiguresOk()
      reads this`health, this`previousEnd, this`previousShotId, this`scanned, this`sampleBytes
    {
      && health == HealthOf(scanned) && previousEnd == PreviousEnd(scanned)
      && previousShotId == (if scanned == [] then None else Some(scanned[|scanned| - 1].shotId))
      && Consistent(scanned, sampleBytes)
    }

    ghost predicate Valid()
      reads this
    {
      && recordCount == scannedCount == |scanned| && cacheLimit > 0
      && CacheOk(scanned) && FiguresOk()
      && (scanned != [] ==> identified)
    }

    /** The files the catalog has seen, grown or not. */
    ghost predicate Watches(f: Files)
      reads this
    {
      WellFormed(f) && Holds(f, scanned) && sampleBytes <= f.sampleBytes
      && (identified ==> f.size >= INDEX_HEADER_BYTES)
    }

    /** Whatever is appended, the catalog can go on from what it has read. */
    lemma Growing(f: Files, g: Files)
      requires Watches(f) && Grows(f, g) && WellFormed(g)
      ensures Watches(g)
    {
      forall i | 0 <= i < |scanned|
        ensures g.records[i] == Some(scanned[i])
      {
        assert g.records[i] == f.records[i];
      }
    }

    constructor (cacheLimit: nat)
      requires cacheLimit > 0
      ensures Valid() && scanned == [] && sampleBytes == 0 && !identified && this.cacheLimit == cacheLimit
    {
      this.cacheLimit := cacheLimit;
      cache, order, identified, recordCount, scannedCount := map[], [], false, 0, 0;
      previousShotId, previousEnd, health, scanned, sampleBytes := None, 0, NO_HEALTH, [], 0;
    }

    /** `_cache_record`. */
    method CacheRecord(ordinal: nat, shot: IndexRecord, ghost rs: seq<IndexRecord>)
      requires cacheLimit > 0 && CacheOk(rs) && ordinal < |rs| && rs[ordinal] == shot
      modifies this`cache, this`order
      ensures CacheOk(rs) && ordinal in cache
    {
      hide Remembers;
      Touch(ordinal, shot, rs);
      while |order| > cacheLimit
        invariant Remembers(rs)
        invariant |order| > 0 && order[|order| - 1] == ordinal
        decreases |order|
      {
        PopOldest(rs);
      }
      LastCached(rs);
    }

    lemma LastCached(rs: seq<IndexRecord>)
      requires Remembers(rs) && order != []
      ensures order[|order| - 1] in cache
    {
      assert order[|order| - 1] in order;
    }

    method PopOldest(ghost rs: seq<IndexRecord>)
      requires Remembers(rs) && |order| > 1
      modifies this`cache, this`order
      ensures Remembers(rs) && order == old(order)[1..]
    {
      var oldest := order[0];
      assert order == [oldest] + order[1..];
      cache := map k | k in cache && k != oldest :: cache[k];
      order := order[1..];
    }

    /** An entry made the most recent one. */
    method Touch(ordinal: nat, shot: IndexRecord, ghost rs: seq<IndexRecord>)
      requires Remembers(rs) && ordinal < |rs| && rs[ordinal] == shot
      modifies this`cache, this`order
      ensures Remembers(rs)
      ensures |order| > 0 && order[|order| - 1] == ordinal
      ensures |order| == old(|order|) + if old(ordinal in cache) then 0 else 1
    {
      if ordinal in cache {
        var i :| 0 <= i < |order| && order[i] == ordinal;
        MovedToEnd(order, i);
        order := order[..i] + order[i + 1..] + [ordinal];
      } else {
        order := order + [ordinal];
      }
      cache := cache[ordinal := shot];
    }

    lemma MovedToEnd(s: seq<nat>, i: nat)
      requires i < |s| && forall a, b | 0 <= a < b < |s| :: s[a] != s[b]
      ensures var r := s[..i] + s[i + 1..] + [s[i]];
        && |r| == |s| && (forall k :: k in r <==> k in s) && (forall a, b | 0 <= a < b < |r| :: r[a] != r[b])
    {
      assert s == s[..i] + [s[i]] + s[i + 1..];
    }

    /** `_decode_range` within the records the catalog knows of. */
    method DecodeRange(f: Files, start: nat, stop: nat, ghost rs: seq<IndexRecord>)
      returns (ok: bool, records: seq<IndexRecord>)
      requires cacheLimit > 0 && CacheOk(rs) && start <= stop <= |f.records|
      requires AllDecode(f.records[start..stop]) ==> stop <= |rs|
      requires forall i | 0 <= i < |rs| && i < |f.records| :: f.records[i] == Some(rs[i])
      modifies this`cache, this`order
      ensures CacheOk(rs)
      ensures ok <==> AllDecode(f.records[start..stop])
      ensures ok ==> records == Decoded(f.records[start..stop])
      ensures ok ==> |records| == stop - start && forall i | 0 <= i < |records| :: records[i] == rs[start + i]
    {
      records := [];
      for i := start to stop
        invariant |records| == i - start
        invariant forall j | start <= j < i :: f.records[j] == Some(records[j - start])
      {
        if f.records[i].None? {
          assert f.records[start..stop][i - start].None?;
          return false, records;
        }
        records := records + [f.records[i].value];
      }
      for i := 0 to |records|
        invariant CacheOk(rs)
      {
        CacheRecord(start + i, records[i], rs);
      }
      ok := true;
    }

    /** `record_at`; there is no record past the catalog. */
    method RecordAt(f: Files, ordinal: nat) returns (shot: IndexRecord)
      requires Valid() && Watches(f) && ordinal < recordCount
      modifies this`cache, this`order
      ensures Valid() && shot == scanned[ordinal]
    {
      hide Remembers, FiguresOk;
      if ordinal in cache {
        CachedAt(ordinal);
        shot := cache[ordinal];
        Touch(ordinal, shot, scanned);
        return;
      }
      assert f.records[ordinal..ordinal + 1] == [Some(scanned[ordinal])];
      var ok, records := DecodeRange(f, ordinal, ordinal + 1, scanned);
      shot := records[0];
    }

    lemma CachedAt(ordinal: nat)
      requires Remembers(scanned) && ordinal in cache
      ensures ordinal < |scanned| && cache[ordinal] == scanned[ordinal]
    {
    }

    /** `find_shot_id`: the record of a shot, exactly when there is one. */
    method FindShotId(f: Files, shotId: U64) returns (found: Option<nat>)
      requires Valid() && Watches(f)
      modifies this`cache, this`order
      ensures Valid()
      ensures match found
              case Some(i) => i < |scanned| && scanned[i].shotId == shotId
              case None => forall i | 0 <= i < |scanned| :: scanned[i].shotId != shotId
    {
      hide CacheOk, FiguresOk;
      AscendingScan();
      var low, high := 0, recordCount;
      while low < high
        invariant 0 <= low <= high <= recordCount && Valid()
        invariant forall i | 0 <= i < low :: scanned[i].shotId < shotId
        invariant forall i | high <= i < recordCount :: shotId <= scanned[i].shotId
      {
        var middle := (low + high) / 2;
        var current := RecordAt(f, middle);
        if current.shotId < shotId {
          low := middle + 1;
        } else {
          high := middle;
        }
      }
      if low < recordCount {
        var shot := RecordAt(f, low);
        if shot.shotId == shotId {
          return Some(low);
        }
      }
      return None;
    }

    lemma AscendingScan()
      requires FiguresOk()
      ensures forall i, j | 0 <= i < j < |scanned| :: scanned[i].shotId < scanned[j].shotId
    {
      forall i, j | 0 <= i < j < |scanned|
        ensures scanned[i].shotId < scanned[j].shotId
      {
        Below(scanned, i, j);
      }
    }

    /** `_accumulate`: one more record, unless it is out of order or out of place. */
    method Accumulate(shot: IndexRecord, sampleFileBytes: nat) returns (ok: bool)
      requires FiguresOk() && sampleBytes == sampleFileBytes && DecodeAccepts(shot)
      modifies this`previousShotId, this`previousEnd, this`health, this`scanned
      ensures ok <==> Consistent(old(scanned) + [shot], sampleFileBytes)
      ensures ok ==> FiguresOk() && scanned == old(scanned) + [shot]
    {
      hide HealthOf, Consistent;
      ConsistentNext(scanned, shot, sampleFileBytes);
      SnocSums(scanned, shot);
      EndNext(scanned, shot);
      var skipped := 0;
      if previousShotId.Some? {
        if shot.shotId <= previousShotId.value {
          return false;
        }
        skipped := shot.shotId - previousShotId.value - 1;
      }
      previousShotId := Some(shot.shotId);
      var bytes := 0;
      if shot.complete {
        var end := shot.extent.offset + shot.extent.bytes;
        if end > sampleFileBytes || shot.extent.offset < previousEnd {
          return false;
        }
        previousEnd := end;
        bytes := shot.extent.bytes;
      }
      AddFigures(shot, skipped, bytes);
      scanned := scanned + [shot];
      ok := true;
    }

    method AddFigures(shot: IndexRecord, skipped: nat, bytes: nat)
      modifies this`health
      ensures var h := old(health);
        health == Health(
          h.complete + (if shot.complete then 1 else 0), h.incomplete + (if shot.complete then 0 else 1),
          h.skipped + skipped, h.sampleBytes + bytes, h.datagrams + shot.datagrams,
          h.duplicates + shot.duplicatePackets, h.reordered + shot.reorderedPackets, h.missing + shot.missingPackets)
    {
      health := Health(
        health.complete + (if shot.complete then 1 else 0), health.incomplete + (if shot.complete then 0 else 1),
        health.skipped + skipped, health.sampleBytes + bytes, health.datagrams + shot.datagrams,
        health.duplicates + shot.duplicatePackets, health.reordered + shot.reorderedPackets,
        health.missing + shot.missingPackets);
    }

    lemma EndNext(rs: seq<IndexRecord>, shot: IndexRecord)
      ensures PreviousEnd(rs + [shot]) == if shot.complete then EndOf(shot) else PreviousEnd(rs)
    {
      assert (rs + [shot])[..|rs|] == rs;
    }

    /** The records so far, as a reader of the whole index would have decoded and checked them. */
    ghost predicate UpTo(f: Files, n: nat)
      reads this
    {
      && n == scannedCount == |scanned| <= |f.records| && cacheLimit > 0 && sampleBytes == f.sampleBytes
      && Holds(f, scanned) && CacheOk(scanned) && FiguresOk()
    }

    /** The next records, decoded together and then counted one by one. */
    method ScanChunk(f: Files, stop: nat) returns (ok: bool)
      requires WellFormed(f) && UpTo(f, scannedCount) && scannedCount <= stop <= |f.records|
      modifies this`cache, this`order, this`scannedCount, this`previousShotId, this`previousEnd, this`health,
          this`scanned
      ensures ok <==> Passes(f, stop)
      ensures ok ==> UpTo(f, stop)
    {
      hide Remembers, CacheOk, FiguresOk, Consistent, WellFormed, Holds, Decoded, AllDecode, Passes;
      ghost var rs := Readable(f, stop, scanned);
      ReadableOf(f, stop, scanned);
      CacheLonger(scanned, rs);
      PassesDecodes(f, stop);
      var decoded, records := DecodeRange(f, scannedCount, stop, rs);
      if !decoded {
        return false;
      }
      assert rs == scanned + records;
      assert rs[..stop] == rs;
      ok := CountAll(f, records, rs);
      if ok {
        scannedCount := stop;
        PassingNow(f, rs, stop);
      } else {
        NotPassing(f, rs, stop, stop);
      }
    }

    /** The records just decoded, which continue those scanned. */
    method CountAll(f: Files, records: seq<IndexRecord>, ghost rs: seq<IndexRecord>) returns (ok: bool)
      requires WellFormed(f) && Holds(f, rs) && FiguresOk() && sampleBytes == f.sampleBytes && rs == scanned + records
      modifies this`previousShotId, this`previousEnd, this`health, this`scanned
      ensures ok <==> Consistent(rs, f.sampleBytes)
      ensures ok ==> FiguresOk() && scanned == rs
    {
      hide HealthOf, Consistent, WellFormed;
      ghost var start := |scanned|;
      for i := 0 to |records|
        invariant FiguresOk() && scanned == rs[..start + i]
      {
        DecodedAccepted(f, rs, start + i);
        assert rs[..start + i] + [records[i]] == rs[..start + i + 1];
        var good := Accumulate(records[i], f.sampleBytes);
        if !good {
          if Consistent(rs, f.sampleBytes) {
            ConsistentPrefix(rs, start + i + 1, f.sampleBytes);
          }
          return false;
        }
      }
      assert rs[..start + |records|] == rs;
      FiguresConsistent();
      ok := true;
    }

    lemma FiguresConsistent()
      requires FiguresOk()
      ensures Consistent(scanned, sampleBytes)
    {
    }

    lemma CacheLonger(a: seq<IndexRecord>, b: seq<IndexRecord>)
      requires CacheOk(a) && a <= b
      ensures CacheOk(b)
    {
    }

    /** `refresh`: it succeeds exactly when a reader of the whole run would, and then its figures are that
        reader's, however the growth was sliced between refreshes. */
    method Refresh(f: Files, runComplete: bool) returns (ok: bool, changed: bool)
      requires Valid() && Watches(f)
      modifies this
      ensures ok <==> BundleOpens(f) && !(runComplete && Truncated(f))
      ensures ok ==> Valid() && Watches(f) && changed == (recordCount != old(recordCount))
      ensures ok && f.size >= INDEX_HEADER_BYTES ==>
                AllDecode(f.records) && scanned == Decoded(f.records) && health == HealthOf(Decoded(f.records))
      ensures ok && f.size < INDEX_HEADER_BYTES ==> scanned == old(scanned) == []
    {
      hide Remembers, HealthOf, Consistent;
      if f.size < INDEX_HEADER_BYTES {
        return true, false;
      }
      if !f.headerOk {
        return false, false;
      }
      identified := true;
      var available := |f.records|;
      changed := available != recordCount;
      recordCount := available;
      ConsistentLater(scanned, sampleBytes, f.sampleBytes);
      sampleBytes := f.sampleBytes;
      while scannedCount < available
        invariant UpTo(f, scannedCount) && recordCount == available && identified
        decreases available - scannedCount
      {
        var stop := if available < scannedCount + CHUNK then available else scannedCount + CHUNK;
        PassesPrefix(f, stop, available);
        var good := ScanChunk(f, stop);
        if !good {
          PassesAll(f);
          return false, changed;
        }
      }
      PassesAll(f);
      PassingNow(f, scanned, available);
      ok := !(runComplete && (f.size - INDEX_HEADER_BYTES) % INDEX_RECORD_BYTES != 0);
    }
  }

  /** The index ends inside a record. */
  predicate Truncated(f: Files) {
    f.size >= INDEX_HEADER_BYTES && (f.size - INDEX_HEADER_BYTES) % INDEX_RECORD_BYTES != 0
  }

  /** The first `n` records decode and pass the checks. */
  ghost predicate Passes(f: Files, n: nat)
    requires n <= |f.records|
  {
    AllDecode(f.records[..n]) && Consistent(Decoded(f.records[..n]), f.sampleBytes)
  }

  /** The first `n` records, or those already known when they do not all decode. */
  ghost function Readable(f: Files, n: nat, known: seq<IndexRecord>): seq<IndexRecord>
    requires n <= |f.records|
  {
    if AllDecode(f.records[..n]) then Decoded(f.records[..n]) else known
  }

  lemma ReadableOf(f: Files, n: nat, known: seq<IndexRecord>)
    requires n <= |f.records| && Holds(f, known) && |known| <= n
    ensures var rs := Readable(f, n, known);
      && known <= rs && |rs| <= n && Holds(f, rs) && (forall i | 0 <= i < |rs| :: f.records[i] == Some(rs[i]))
      && (AllDecode(f.records[|known|..n]) <==> AllDecode(f.records[..n]))
      && (AllDecode(f.records[|known|..n]) ==> |rs| == n)
  {
    var a, b := f.records[..n], f.records[|known|..n];
    if AllDecode(b) {
      forall i | 0 <= i < n
        ensures a[i].Some?
      {
        assert i >= |known| ==> b[i - |known|].Some?;
      }
    }
    if AllDecode(a) {
      forall i | 0 <= i < |b|
        ensures b[i].Some?
      {
        assert a[i + |known|].Some?;
      }
      forall i | 0 <= i < n
        ensures f.records[i] == Some(Decoded(a)[i])
      {
        assert a[i].Some?;
      }
    }
  }

  lemma PassesPrefix(f: Files, m: nat, n: nat)
    requires m <= n <= |f.records|
    ensures Passes(f, n) ==> Passes(f, m)
  {
    if Passes(f, n) {
      forall i | 0 <= i < m
        ensures f.records[..m][i].Some?
      {
        assert f.records[..n][i].Some?;
      }
      assert Decoded(f.records[..m]) == Decoded(f.records[..n])[..m];
      ConsistentPrefix(Decoded(f.records[..n]), m, f.sampleBytes);
    }
  }

  lemma PassesDecodes(f: Files, n: nat)
    requires n <= |f.records|
    ensures Passes(f, n) ==> AllDecode(f.records[..n])
  {
  }

  lemma NotPassing(f: Files, rs: seq<IndexRecord>, m: nat, n: nat)
    requires m <= n == |rs| <= |f.records| && Holds(f, rs) && !Consistent(rs[..m], f.sampleBytes)
    ensures !Passes(f, n)
  {
    if Passes(f, n) {
      DecodedIs(f, rs, n);
      ConsistentPrefix(rs, m, f.sampleBytes);
    }
  }

  lemma DecodedIs(f: Files, rs: seq<IndexRecord>, n: nat)
    requires n == |rs| <= |f.records| && Holds(f, rs)
    ensures AllDecode(f.records[..n]) && Decoded(f.records[..n]) == rs
  {
  }

  lemma PassingNow(f: Files, rs: seq<IndexRecord>, n: nat)
    requires n == |rs| <= |f.records| && Holds(f, rs) && Consistent(rs, f.sampleBytes)
    ensures Passes(f, n) && Decoded(f.records[..n]) == rs
  {
    DecodedIs(f, rs, n);
  }

  lemma PassesAll(f: Files)
    requires f.size >= INDEX_HEADER_BYTES && f.headerOk
    ensures BundleOpens(f) <==> Passes(f, |f.records|)
    ensures f.records[..|f.records|] == f.records
  {
    assert f.records[..|f.records|] == f.records;
  }

  lemma DecodedAccepted(f: Files, rs: seq<IndexRecord>, i: nat)
    requires WellFormed(f) && i < |rs| <= |f.records| && Holds(f, rs)
    ensures DecodeAccepts(rs[i])
  {
    assert f.records[i] == Some(rs[i]);
  }
}
