/** host/analyzer/qcrate_run.py: a run's index read as a whole (`RunBundle`) and its health figures. */
module RunCatalog {
  import opened Protocol
  import opened RunFormat

  const INDEX_HEADER_BYTES := 32
  const INDEX_RECORD_BYTES := 128

  /** The two files as they are found: the index's size, whether its header is right, what each whole record
      decodes to, and the size of the sample file. */
  datatype Files = Files(size: nat, headerOk: bool, records: seq<Option<IndexRecord>>, sampleBytes: nat)

  predicate WellFormed(f: Files) {
    && |f.records| == (if f.size < INDEX_HEADER_BYTES then 0 else (f.size - INDEX_HEADER_BYTES) / INDEX_RECORD_BYTES)
    && forall i | 0 <= i < |f.records| && f.records[i].Some? :: DecodeAccepts(f.records[i].value)
  }

  /** What appending can make of them. */
  predicate Grows(f: Files, g: Files) {
    f.size <= g.size && f.headerOk == g.headerOk && f.records <= g.records && f.sampleBytes <= g.sampleBytes
  }

  predicate AllDecode(rs: seq<Option<IndexRecord>>) {
    forall i | 0 <= i < |rs| :: rs[i].Some?
  }

  function Decoded(rs: seq<Option<IndexRecord>>): (r: seq<IndexRecord>)
    requires AllDecode(rs)
    ensures |r| == |rs|
  {
    seq(|rs|, i requires 0 <= i < |rs| => rs[i].value)
  }

  // ----- the checks over the records -----

  predicate Ascending(rs: seq<IndexRecord>) {
    forall i | 0 < i < |rs| :: rs[i - 1].shotId < rs[i].shotId
  }

  function EndOf(r: IndexRecord): nat {
    if r.extent.Extent? then r.extent.offset + r.extent.bytes else 0
  }

  /** Where the samples of the last COMPLETE record end. */
  function PreviousEnd(rs: seq<IndexRecord>): nat {
    if rs == [] then 0
    else if rs[|rs| - 1].complete then EndOf(rs[|rs| - 1])
    else PreviousEnd(rs[..|rs| - 1])
  }

  /** COMPLETE record `i` lies in the sample file and after those before it. */
  predicate Placed(rs: seq<IndexRecord>, i: nat, sampleBytes: nat)
    requires i < |rs|
  {
    rs[i].complete ==>
      && EndOf(rs[i]) <= sampleBytes
      && rs[i].extent.Extent? && PreviousEnd(rs[..i]) <= rs[i].extent.offset
  }

  predicate Consistent(rs: seq<IndexRecord>, sampleBytes: nat) {
    Ascending(rs) && forall i | 0 <= i < |rs| :: Placed(rs, i, sampleBytes)
  }

  /** `RunBundle.open` on a run that may still be growing. */
  predicate BundleOpens(f: Files) {
    f.size >= INDEX_HEADER_BYTES ==>
      f.headerOk && AllDecode(f.records) && Consistent(Decoded(f.records), f.sampleBytes)
  }

  /** Every COMPLETE record's samples end before those of the next one start. */
  predicate Apart(rs: seq<IndexRecord>) {
    forall i, j | 0 <= i < j < |rs| && rs[i].complete && rs[j].complete :: StartsAfter(rs[j], EndOf(rs[i]))
  }

  predicate StartsAfter(r: IndexRecord, end: nat) {
    r.extent.Extent? && end <= r.extent.offset
  }

  predicate Extended(rs: seq<IndexRecord>) {
    forall i | 0 <= i < |rs| && rs[i].complete :: rs[i].extent.Extent?
  }

  lemma {:induction false} PreviousEnds(rs: seq<IndexRecord>)
    requires Extended(rs)
    ensures PreviousEnd(rs) == 0 || exists i | 0 <= i < |rs| :: rs[i].complete && PreviousEnd(rs) == EndOf(rs[i])
    ensures Apart(rs) ==> forall i | 0 <= i < |rs| && rs[i].complete :: EndOf(rs[i]) <= PreviousEnd(rs)
  {
    if rs != [] && !rs[|rs| - 1].complete {
      var init := rs[..|rs| - 1];
      PreviousEnds(init);
      if i :| 0 <= i < |init| && init[i].complete && PreviousEnd(init) == EndOf(init[i]) {
        assert rs[i].complete && PreviousEnd(rs) == EndOf(rs[i]);
      }
    }
  }

  lemma {:induction false} PlacedMeansApart(rs: seq<IndexRecord>, n: nat, sampleBytes: nat)
    requires Extended(rs) && n <= |rs|
    ensures (forall i | 0 <= i < n :: Placed(rs, i, sampleBytes)) <==>
            Apart(rs[..n]) && forall i | 0 <= i < n && rs[i].complete :: EndOf(rs[i]) <= sampleBytes
  {
    if n > 0 {
      PlacedMeansApart(rs, n - 1, sampleBytes);
      var init, r := rs[..n - 1], rs[n - 1];
      ApartNext(init, r);
      assert rs[..n] == init + [r];
      assert forall i | 0 <= i < n - 1 :: init[i] == rs[i];
      if Apart(init) {
        AfterPrevious(init, r);
      }
      OnePlaced(rs, n - 1, sampleBytes);
      hide Apart, StartsAfter, EndOf, Placed, PreviousEnd;
      assert (forall i | 0 <= i < n :: Placed(rs, i, sampleBytes))
        <==> (forall i | 0 <= i < n - 1 :: Placed(rs, i, sampleBytes)) && Placed(rs, n - 1, sampleBytes);
      assert (forall i | 0 <= i < n && rs[i].complete :: EndOf(rs[i]) <= sampleBytes)
        <==> (forall i | 0 <= i < n - 1 && rs[i].complete :: EndOf(rs[i]) <= sampleBytes)
             && (r.complete ==> EndOf(r) <= sampleBytes);
    }
  }

  lemma OnePlaced(rs: seq<IndexRecord>, i: nat, sampleBytes: nat)
    requires i < |rs|
    ensures Placed(rs, i, sampleBytes)
      <==> (rs[i].complete ==> EndOf(rs[i]) <= sampleBytes && StartsAfter(rs[i], PreviousEnd(rs[..i])))
  {
  }

  lemma AfterPrevious(rs: seq<IndexRecord>, r: IndexRecord)
    requires Extended(rs) && Apart(rs) && (r.complete ==> r.extent.Extent?)
    ensures r.complete ==> (StartsAfter(r, PreviousEnd(rs)) <==>
                              forall i | 0 <= i < |rs| && rs[i].complete :: StartsAfter(r, EndOf(rs[i])))
  {
    PreviousEnds(rs);
  }

  lemma ApartNext(rs: seq<IndexRecord>, r: IndexRecord)
    ensures Apart(rs + [r]) <==>
      Apart(rs) && (r.complete ==> forall i | 0 <= i < |rs| && rs[i].complete :: StartsAfter(r, EndOf(rs[i])))
  {
    var more := rs + [r];
    if Apart(more) {
      forall i, j | 0 <= i < j < |rs| && rs[i].complete && rs[j].complete
        ensures StartsAfter(rs[j], EndOf(rs[i]))
      {
        assert more[i].complete && more[j].complete;
      }
      forall i | 0 <= i < |rs| && rs[i].complete && r.complete
        ensures StartsAfter(r, EndOf(rs[i]))
      {
        assert more[i].complete && more[|rs|].complete;
      }
    }
  }

  /** A run opens while its header is not yet whole; after that exactly when the header is right, every whole record
      decodes, ids ascend and each COMPLETE record's samples lie in the sample file, apart from the others'. */
  lemma OpensWhen(f: Files)
    requires WellFormed(f)
    ensures f.size >= 32 ==> |f.records| == (f.size - 32) / 128
    ensures BundleOpens(f) <==>
            f.size >= 32 ==>
              && f.headerOk && AllDecode(f.records)
              && var rs := Decoded(f.records);
                && (forall i | 0 < i < |rs| :: rs[i - 1].shotId < rs[i].shotId)
                && (forall i | 0 <= i < |rs| && rs[i].complete :: EndOf(rs[i]) <= f.sampleBytes) && Apart(rs)
  {
    if f.size >= 32 && AllDecode(f.records) {
      var rs := Decoded(f.records);
      assert rs[..|rs|] == rs;
      PlacedMeansApart(rs, |rs|, f.sampleBytes);
    }
  }

  // ----- the health figures -----

  datatype Health = Health(
    complete: nat, incomplete: nat, skipped: nat, sampleBytes: nat, datagrams: nat, duplicates: nat, reordered: nat,
    missing: nat)

  const NO_HEALTH := Health(0, 0, 0, 0, 0, 0, 0, 0)

  datatype Figure = Complete | Incomplete | SampleBytes | Datagrams | Duplicates | Reordered | Missing

  function Of(r: IndexRecord, figure: Figure): nat {
    match figure
    case Complete => if r.complete then 1 else 0
    case Incomplete => if r.complete then 0 else 1
    case SampleBytes => if r.complete && r.extent.Extent? then r.extent.bytes else 0
    case Datagrams => r.datagrams
    case Duplicates => r.duplicatePackets
    case Reordered => r.reorderedPackets
    case Missing => r.missingPackets
  }

  function Sum(rs: seq<IndexRecord>, figure: Figure): nat {
    if rs == [] then 0 else Of(rs[0], figure) + Sum(rs[1..], figure)
  }

  function Gap(left: IndexRecord, right: IndexRecord): nat {
    if right.shotId > left.shotId then right.shotId - left.shotId - 1 else 0
  }

  /** Shot ids between neighbouring records that no record has. */
  function Skipped(rs: seq<IndexRecord>): nat {
    if |rs| < 2 then 0 else Gap(rs[0], rs[1]) + Skipped(rs[1..])
  }

  /** `RunBundle.health`: sums over the whole run. */
  function HealthOf(rs: seq<IndexRecord>): Health {
    Health(Sum(rs, Complete), Sum(rs, Incomplete), Skipped(rs), Sum(rs, SampleBytes), Sum(rs, Datagrams),
           Sum(rs, Duplicates), Sum(rs, Reordered), Sum(rs, Missing))
  }

  lemma {:induction false} SumNext(rs: seq<IndexRecord>, r: IndexRecord, figure: Figure)
    ensures Sum(rs + [r], figure) == Sum(rs, figure) + Of(r, figure)
  {
    if rs == [] {
      assert [r][1..] == [];
    } else {
      SumNext(rs[1..], r, figure);
      assert (rs + [r])[1..] == rs[1..] + [r];
    }
  }

  lemma {:induction false} SkippedNext(rs: seq<IndexRecord>, r: IndexRecord)
    ensures Skipped(rs + [r]) == Skipped(rs) + if rs == [] then 0 else Gap(rs[|rs| - 1], r)
  {
    if |rs| >= 2 {
      SkippedNext(rs[1..], r);
      assert (rs + [r])[1..] == rs[1..] + [r];
      assert (rs + [r])[0] == rs[0] && (rs + [r])[1] == rs[1];
    } else if |rs| == 1 {
      assert (rs + [r])[1..] == [r];
    }
  }

  /** With ascending ids the skipped ones are those in the range that have no record. */
  lemma {:induction false} SkippedIsTheRest(rs: seq<IndexRecord>)
    requires Ascending(rs) && rs != []
    ensures Skipped(rs) + |rs| == rs[|rs| - 1].shotId - rs[0].shotId + 1
  {
    if |rs| > 1 {
      assert rs[0].shotId < rs[1].shotId;
      AscendingTail(rs);
      SkippedIsTheRest(rs[1..]);
    }
  }

  lemma AscendingTail(rs: seq<IndexRecord>)
    requires Ascending(rs) && rs != []
    ensures Ascending(rs[1..])
  {
    forall i | 0 < i < |rs[1..]|
      ensures rs[1..][i - 1].shotId < rs[1..][i].shotId
    {
      assert rs[i].shotId < rs[i + 1].shotId;
    }
  }

  lemma {:induction false} Below(rs: seq<IndexRecord>, i: nat, j: nat)
    requires Ascending(rs) && i < j < |rs|
    ensures rs[i].shotId < rs[j].shotId
    decreases j
  {
    assert rs[j - 1].shotId < rs[j].shotId;
    if i < j - 1 {
      Below(rs, i, j - 1);
    }
  }

  /** One more record passes the checks, or the run does not. */
  lemma ConsistentNext(rs: seq<IndexRecord>, r: IndexRecord, sampleBytes: nat)
    requires Consistent(rs, sampleBytes)
    ensures Consistent(rs + [r], sampleBytes)
       <==> && (rs != [] ==> rs[|rs| - 1].shotId < r.shotId)
            && (r.complete ==> EndOf(r) <= sampleBytes && r.extent.Extent? && PreviousEnd(rs) <= r.extent.offset)
  {
    hide Placed;
    var more := rs + [r];
    PlacedNext(rs, r, sampleBytes);
    forall i | 0 < i < |rs|
      ensures more[i - 1].shotId < more[i].shotId
    {
      assert rs[i - 1].shotId < rs[i].shotId;
    }
    if Consistent(more, sampleBytes) {
      assert Placed(more, |rs|, sampleBytes);
      assert rs != [] ==> more[|rs| - 1].shotId < more[|rs|].shotId;
    }
  }

  lemma PlacedNext(rs: seq<IndexRecord>, r: IndexRecord, sampleBytes: nat)
    ensures forall i | 0 <= i < |rs| :: Placed(rs + [r], i, sampleBytes) <==> Placed(rs, i, sampleBytes)
    ensures Placed(rs + [r], |rs|, sampleBytes)
       <==> (r.complete ==> EndOf(r) <= sampleBytes && r.extent.Extent? && PreviousEnd(rs) <= r.extent.offset)
  {
    var more := rs + [r];
    assert more[..|rs|] == rs;
    forall i | 0 <= i < |rs|
      ensures Placed(more, i, sampleBytes) <==> Placed(rs, i, sampleBytes)
    {
      assert more[..i] == rs[..i];
    }
  }

  /** What passed while the sample file was shorter still passes. */
  lemma ConsistentLater(rs: seq<IndexRecord>, before: nat, now: nat)
    requires Consistent(rs, before) && before <= now
    ensures Consistent(rs, now)
  {
    forall i | 0 <= i < |rs|
      ensures Placed(rs, i, now)
    {
      assert Placed(rs, i, before);
    }
  }

  /** A run's checks fail already on the records so far. */
  lemma ConsistentPrefix(rs: seq<IndexRecord>, n: nat, sampleBytes: nat)
    requires Consistent(rs, sampleBytes) && n <= |rs|
    ensures Consistent(rs[..n], sampleBytes)
  {
    var p := rs[..n];
    forall i | 0 <= i < n
      ensures Placed(p, i, sampleBytes)
    {
      assert Placed(rs, i, sampleBytes) && p[..i] == rs[..i];
    }
    forall i | 0 < i < n
      ensures p[i - 1].shotId < p[i].shotId
    {
      assert rs[i - 1].shotId < rs[i].shotId;
    }
  }
}
