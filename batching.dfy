/**
 * Reference definitions for one run of the ingestion loop: which IDs it
 * visits, which records it keeps, and how it cuts them into batches for the
 * store. The loop in module Ingestion is proved to produce exactly these.
 */
module Batching {
  import opened Wrappers
  import opened Fetcher

  /** Number of IDs attempted between two flushes (`count === 100`). */
  const BatchSize: int := 100

  /** `lastIdFetched ? i = lastIdFetched : i = 1`: a zero resumption point means "from the start". */
  function StartId(lastIdFetched: int): int {
    if lastIdFetched != 0 then lastIdFetched else 1
  }

  function Min(a: int, b: int): int {
    if a <= b then a else b
  }

  /** The IDs `lo`, `lo + 1`, ..., `hi` in order; empty when `lo > hi`. */
  function IdRange(lo: int, hi: int): (r: seq<int>)
    decreases hi - lo
    ensures |r| == if lo <= hi then hi - lo + 1 else 0
  {
    if lo > hi then [] else IdRange(lo, hi - 1) + [hi]
  }

  /** The record one ID contributes: its payload, or nothing when the fetch gave `null`. */
  function KeptAt(respond: int -> Response, i: int): seq<Record> {
    match Payload(respond(i))
    case Some(doc) => [doc]
    case None => []
  }

  /** The records the loop keeps for IDs `lo`..`hi`, in ID order. */
  function Kept(respond: int -> Response, lo: int, hi: int): (r: seq<Record>)
    decreases hi - lo
    ensures |r| <= if lo <= hi then hi - lo + 1 else 0
  {
    if lo > hi then [] else Kept(respond, lo, hi - 1) + KeptAt(respond, hi)
  }

  /**
   * The batches handed to the store by a run over `start`..`total`: one per
   * window of BatchSize consecutive attempted IDs, the last window cut short
   * at `total`, each holding that window's records.
   */
  function Batches(respond: int -> Response, start: int, total: int): seq<seq<Record>>
    decreases total - start
  {
    if start > total then []
    else [Kept(respond, start, Min(start + BatchSize - 1, total))]
         + Batches(respond, start + BatchSize, total)
  }

  /** The records of `batches`, one batch after another. */
  function Flatten(batches: seq<seq<Record>>): seq<Record> {
    if batches == [] then []
    else Flatten(batches[..|batches| - 1]) + batches[|batches| - 1]
  }

  /** What the store keeps: the batches whose insert (the j-th call) was accepted. */
  function Committed(batches: seq<seq<Record>>, accepts: nat -> bool): seq<Record> {
    if batches == [] then []
    else
      var n := |batches| - 1;
      Committed(batches[..n], accepts) + (if accepts(n) then batches[n] else [])
  }

  // ---------------------------------------------------------------- IDs

  /** The k-th ID visited is `lo + k`. */
  lemma {:induction false} IdRangeAt(lo: int, hi: int, k: int)
    requires 0 <= k < |IdRange(lo, hi)|
    ensures IdRange(lo, hi)[k] == lo + k
    decreases hi - lo
  {
    if k < hi - lo {
      IdRangeAt(lo, hi - 1, k);
    }
  }

  /** The run visits every ID of `lo`..`hi` and nothing else, in strictly increasing order. */
  lemma IdRangeVisitsEachOnce(lo: int, hi: int)
    ensures forall i :: i in IdRange(lo, hi) <==> lo <= i <= hi
    ensures forall j, k :: 0 <= j < k < |IdRange(lo, hi)| ==> IdRange(lo, hi)[j] < IdRange(lo, hi)[k]
  {
    var r := IdRange(lo, hi);
    forall k | 0 <= k < |r| ensures r[k] == lo + k {
      IdRangeAt(lo, hi, k);
    }
    forall i | lo <= i <= hi ensures i in r {
      assert r[i - lo] == i;
    }
  }

  /**
   * Where a run starts and ends: with a nonzero resumption point `m` the scan
   * re-fetches `m` first, otherwise it starts at 1; it ends at `total`, and
   * there is no iteration at all when the start lies beyond `total`.
   */
  lemma ScanBounds(lastIdFetched: int, total: int)
    ensures var ids := IdRange(StartId(lastIdFetched), total);
            (ids == [] <==> StartId(lastIdFetched) > total) &&
            (ids != [] ==> ids[0] == (if lastIdFetched != 0 then lastIdFetched else 1) && ids[|ids| - 1] == total)
  {
    var start := StartId(lastIdFetched);
    var ids := IdRange(start, total);
    if ids != [] {
      IdRangeAt(start, total, 0);
      IdRangeAt(start, total, |ids| - 1);
    }
  }

  // ---------------------------------------------------------------- records kept

  lemma {:induction false} KeptSplit(respond: int -> Response, lo: int, m: int, hi: int)
    requires lo <= m <= hi + 1
    ensures Kept(respond, lo, hi) == Kept(respond, lo, m - 1) + Kept(respond, m, hi)
    decreases hi - lo
  {
    if m <= hi {
      KeptSplit(respond, lo, m, hi - 1);
    }
  }

  /**
   * A record is kept for `lo`..`hi` exactly when some ID of the range yields
   * it: an ID whose fetch gave `null` contributes nothing.
   */
  lemma {:induction false} KeptMembership(respond: int -> Response, lo: int, hi: int, x: Record)
    ensures x in Kept(respond, lo, hi) <==> exists i :: lo <= i <= hi && Payload(respond(i)) == Some(x)
    decreases hi - lo
  {
    if lo <= hi {
      KeptMembership(respond, lo, hi - 1, x);
      if Payload(respond(hi)) == Some(x) {
        assert x in KeptAt(respond, hi);
      }
    }
  }

  /** Nothing is kept exactly when every ID of the range gave `null`. */
  lemma {:induction false} KeptEmptyIff(respond: int -> Response, lo: int, hi: int)
    ensures Kept(respond, lo, hi) == [] <==> forall i :: lo <= i <= hi ==> Payload(respond(i)).None?
    decreases hi - lo
  {
    if lo <= hi {
      KeptEmptyIff(respond, lo, hi - 1);
    }
  }

  /** When every ID of the range yields a record, one record is kept per ID. */
  lemma {:induction false} KeptAllRecords(respond: int -> Response, lo: int, hi: int)
    requires lo <= hi + 1
    requires forall i :: lo <= i <= hi ==> Payload(respond(i)).Some?
    ensures |Kept(respond, lo, hi)| == hi - lo + 1
    decreases hi - lo
  {
    if lo <= hi {
      KeptAllRecords(respond, lo, hi - 1);
    }
  }

  // ---------------------------------------------------------------- batches

  /**
   * One step of the loop: after k full windows, ending at the boundary `b`,
   * a flush at ID `hi` (at most BatchSize IDs into the window) adds exactly
   * one batch, holding the window's records.
   */
  lemma {:induction false} BatchesStep(respond: int -> Response, start: int, k: nat, b: int, hi: int)
    requires b == start + BatchSize * k
    requires b <= hi < b + BatchSize
    ensures Batches(respond, start, hi) == Batches(respond, start, b - 1) + [Kept(respond, b, hi)]
    decreases k
  {
    if k == 0 {
      assert Batches(respond, start + BatchSize, hi) == [];
    } else {
      var next := start + BatchSize;
      var first := Kept(respond, start, next - 1);
      var done := Batches(respond, next, b - 1);
      var last := [Kept(respond, b, hi)];
      BatchesStep(respond, next, k - 1, b, hi);
      assert Batches(respond, start, hi) == [first] + (done + last);
      assert Batches(respond, start, b - 1) == [first] + done;
      assert [first] + (done + last) == ([first] + done) + last;
    }
  }

  /** A run over N >= 1 IDs flushes ceil(N / BatchSize) times. */
  lemma {:induction false} BatchesCount(respond: int -> Response, start: int, total: int)
    requires start <= total
    ensures var n := |Batches(respond, start, total)|;
            BatchSize * (n - 1) < total - start + 1 <= BatchSize * n
    decreases total - start
  {
    if start + BatchSize <= total {
      BatchesCount(respond, start + BatchSize, total);
    }
  }

  /**
   * Batch j holds exactly the records of the j-th window of attempted IDs,
   * `lo = start + 100 j` up to the next boundary or `total`: the flush trigger
   * counts IDs attempted, not records buffered, and windows never overlap.
   */
  lemma {:induction false} BatchAt(respond: int -> Response, start: int, total: int, j: nat, lo: int)
    requires j < |Batches(respond, start, total)|
    requires lo == start + BatchSize * j
    ensures Batches(respond, start, total)[j] == Kept(respond, lo, Min(lo + BatchSize - 1, total))
    decreases j
  {
    if j > 0 {
      var next := start + BatchSize;
      assert Batches(respond, start, total)[j] == Batches(respond, next, total)[j - 1];
      BatchAt(respond, next, total, j - 1, lo);
    }
  }

  /** No batch holds more than BatchSize records. */
  lemma BatchesBounded(respond: int -> Response, start: int, total: int)
    ensures forall b :: b in Batches(respond, start, total) ==> |b| <= BatchSize
  {
    var bs := Batches(respond, start, total);
    forall b | b in bs ensures |b| <= BatchSize {
      var j :| 0 <= j < |bs| && bs[j] == b;
      BatchAt(respond, start, total, j, start + BatchSize * j);
    }
  }

  lemma FlattenSnoc(batches: seq<seq<Record>>, b: seq<Record>)
    ensures Flatten(batches + [b]) == Flatten(batches) + b
  {
    assert (batches + [b])[..|batches|] == batches;
  }

  lemma {:induction false} FlattenCons(b: seq<Record>, batches: seq<seq<Record>>)
    ensures Flatten([b] + batches) == b + Flatten(batches)
    decreases |batches|
  {
    if batches == [] {
      assert [b] + batches == [] + [b];
      FlattenSnoc([], b);
    } else {
      var init := batches[..|batches| - 1];
      var last := batches[|batches| - 1];
      assert [b] + batches == ([b] + init) + [last];
      assert batches == init + [last];
      FlattenSnoc([b] + init, last);
      FlattenSnoc(init, last);
      FlattenCons(b, init);
    }
  }

  /**
   * The batches partition the kept records: submitted one after another they
   * give every kept record of the run, in ID order, each exactly once.
   */
  lemma {:induction false} BatchesPartition(respond: int -> Response, start: int, total: int)
    ensures Flatten(Batches(respond, start, total)) == Kept(respond, start, total)
    decreases total - start
  {
    if start <= total {
      var m := Min(start + BatchSize - 1, total);
      var rest := Batches(respond, start + BatchSize, total);
      BatchesPartition(respond, start + BatchSize, total);
      FlattenCons(Kept(respond, start, m), rest);
      KeptSplit(respond, start, m + 1, total);
      if m == total {
        assert Kept(respond, start + BatchSize, total) == [] == Kept(respond, m + 1, total);
      }
    }
  }

  /** Every submitted record is the payload of an ID in the range whose fetch did not give `null`. */
  lemma NoNullSubmitted(respond: int -> Response, start: int, total: int, j: nat, x: Record)
    requires j < |Batches(respond, start, total)|
    requires x in Batches(respond, start, total)[j]
    ensures exists i :: start <= i <= total && Payload(respond(i)) == Some(x)
  {
    var lo := start + BatchSize * j;
    var hi := Min(lo + BatchSize - 1, total);
    BatchAt(respond, start, total, j, lo);
    KeptMembership(respond, lo, hi, x);
  }

  /**
   * The last flush may hand over an empty batch: it is empty exactly when
   * every ID attempted since the last full flush gave `null`.
   */
  lemma FinalBatchEmptyIff(respond: int -> Response, start: int, total: int)
    requires start <= total
    ensures var bs := Batches(respond, start, total);
            |bs| > 0 &&
            (bs[|bs| - 1] == [] <==>
             forall i :: start + BatchSize * (|bs| - 1) <= i <= total ==> Payload(respond(i)).None?)
  {
    var bs := Batches(respond, start, total);
    BatchesCount(respond, start, total);
    var lo := start + BatchSize * (|bs| - 1);
    BatchAt(respond, start, total, |bs| - 1, lo);
    assert Min(lo + BatchSize - 1, total) == total;
    KeptEmptyIff(respond, lo, total);
  }

  /**
   * When every fetch of the range succeeds, every batch but the last is full
   * and the last holds the remaining N - 100 (k - 1) records.
   */
  lemma AllRecordsBatchSizes(respond: int -> Response, start: int, total: int)
    requires start <= total
    requires forall i :: start <= i <= total ==> Payload(respond(i)).Some?
    ensures var bs := Batches(respond, start, total);
            |bs| > 0 &&
            (forall j :: 0 <= j < |bs| - 1 ==> |bs[j]| == BatchSize) &&
            |bs[|bs| - 1]| == (total - start + 1) - BatchSize * (|bs| - 1)
  {
    var bs := Batches(respond, start, total);
    BatchesCount(respond, start, total);
    forall j | 0 <= j < |bs|
      ensures |bs[j]| == Min(start + BatchSize * j + BatchSize - 1, total) - (start + BatchSize * j) + 1
    {
      var lo := start + BatchSize * j;
      BatchAt(respond, start, total, j, lo);
      KeptAllRecords(respond, lo, Min(lo + BatchSize - 1, total));
    }
  }

  /**
   * A scan of IDs 1..5 where IDs 1, 2 and 4 give records and 3 and 5 give
   * no data: one final flush of exactly those three records, in order.
   */
  lemma FiveIdExample(respond: int -> Response, r1: Record, r2: Record, r4: Record)
    requires Payload(respond(1)) == Some(r1) && Payload(respond(2)) == Some(r2)
    requires Payload(respond(3)) == None && Payload(respond(4)) == Some(r4)
    requires Payload(respond(5)) == None
    ensures Batches(respond, 1, 5) == [[r1, r2, r4]]
    ensures |Kept(respond, 1, 5)| == 3
  {
    assert Kept(respond, 1, 0) == [];
    assert Kept(respond, 1, 1) == [r1];
    assert Kept(respond, 1, 2) == [r1, r2];
    assert Kept(respond, 1, 3) == [r1, r2];
    assert Kept(respond, 1, 4) == [r1, r2, r4];
    assert Kept(respond, 1, 5) == [r1, r2, r4];
    assert Batches(respond, 101, 5) == [];
  }

  // ---------------------------------------------------------------- the store

  /**
   * The store never holds more than was submitted, and holds all of it, in
   * order, when every insert is accepted.
   */
  lemma {:induction false} CommittedWithinFlatten(batches: seq<seq<Record>>, accepts: nat -> bool)
    ensures |Committed(batches, accepts)| <= |Flatten(batches)|
    ensures (forall j :: 0 <= j < |batches| ==> accepts(j)) ==> Committed(batches, accepts) == Flatten(batches)
    decreases |batches|
  {
    if batches != [] {
      var n := |batches| - 1;
      CommittedWithinFlatten(batches[..n], accepts);
    }
  }

  /** One more insert call: the store gains the batch exactly when that call is accepted. */
  lemma CommittedSnoc(batches: seq<seq<Record>>, b: seq<Record>, accepts: nat -> bool)
    ensures Committed(batches + [b], accepts)
         == Committed(batches, accepts) + (if accepts(|batches|) then b else [])
  {
    assert (batches + [b])[..|batches|] == batches;
  }

  // ---------------------------------------------------------------- saveData outcomes

  /**
   * How the catch block of `saveData` writes the error of a rejected insert
   * to its log file. `ErrorObject` is the code as written: it hands
   * `fs.promises.writeFile` the error object itself, which `fs` refuses
   * (it writes strings, buffers, typed arrays and iterables only), so the
   * catch block rejects in turn and the rejection leaves `saveData` and
   * `main`. `ErrorText` writes the error's text: the log succeeds and
   * `saveData` returns.
   */
  datatype ErrorLog = ErrorObject | ErrorText

  /** Whether the j-th `saveData` call of a run returns normally. */
  predicate Resolves(log: ErrorLog, accepts: nat -> bool, j: nat) {
    accepts(j) || log == ErrorText
  }

  /**
   * Whether a scan from the window starting at `s`, with `j` flushes made
   * before it, gets past `total`: every flush it makes returns.
   */
  predicate Completes(log: ErrorLog, accepts: nat -> bool, s: int, j: nat, total: int)
    decreases total - s
  {
    s > total || (Resolves(log, accepts, j) && Completes(log, accepts, s + BatchSize, j + 1, total))
  }

  /**
   * The last ID requested by a scan from the window starting at `s`, with
   * `j` flushes made before it: `total` when the scan completes, otherwise
   * the last ID of the first window whose flush does not return.
   */
  function StopAt(log: ErrorLog, accepts: nat -> bool, s: int, j: nat, total: int): (r: int)
    decreases total - s
    ensures r <= total
    ensures Completes(log, accepts, s, j, total) ==> r == total
  {
    if s > total then total
    else if Resolves(log, accepts, j) then StopAt(log, accepts, s + BatchSize, j + 1, total)
    else Min(s + BatchSize - 1, total)
  }

  /**
   * A flush at ID `i` closes the window starting at `b`: when it returns,
   * the scan goes on from `i + 1` with one more flush made; when it does
   * not, `i` is the last ID requested.
   */
  lemma StopAtFlush(log: ErrorLog, accepts: nat -> bool, b: int, k: nat, i: int, total: int)
    requires b <= i <= total && (i == b + BatchSize - 1 || (i == total && i < b + BatchSize))
    ensures Resolves(log, accepts, k) ==>
              StopAt(log, accepts, b, k, total) == StopAt(log, accepts, i + 1, k + 1, total) &&
              (Completes(log, accepts, b, k, total) <==> Completes(log, accepts, i + 1, k + 1, total))
    ensures !Resolves(log, accepts, k) ==>
              StopAt(log, accepts, b, k, total) == i && !Completes(log, accepts, b, k, total)
  {
    if i != b + BatchSize - 1 {
      assert StopAt(log, accepts, b + BatchSize, k + 1, total) == total;
      assert StopAt(log, accepts, i + 1, k + 1, total) == total;
    }
  }

  /**
   * A scan completes exactly when every flush it makes returns: one flush
   * per window, the j-th being call `j0 + j` of the run.
   */
  lemma {:induction false} CompletesIff(respond: int -> Response, log: ErrorLog, accepts: nat -> bool, s: int, j0: nat, total: int)
    ensures Completes(log, accepts, s, j0, total) <==>
            forall j :: j0 <= j < j0 + |Batches(respond, s, total)| ==> Resolves(log, accepts, j)
    decreases total - s
  {
    if s <= total {
      CompletesIff(respond, log, accepts, s + BatchSize, j0 + 1, total);
    }
  }

  /**
   * As written, the first rejected insert ends the run: when calls before
   * `j0 + m` were accepted and call `j0 + m` is rejected, the scan stops at
   * the end of that call's window, never completes, and has submitted
   * exactly the batches up to and including the rejected one.
   */
  lemma {:induction false} RejectionHaltsScan(respond: int -> Response, accepts: nat -> bool, s: int, j0: nat, total: int, m: nat, lo: int)
    requires lo == s + BatchSize * m && lo <= total
    requires !accepts(j0 + m) && forall q :: j0 <= q < j0 + m ==> accepts(q)
    ensures StopAt(ErrorObject, accepts, s, j0, total) == Min(lo + BatchSize - 1, total)
    ensures !Completes(ErrorObject, accepts, s, j0, total)
    ensures m < |Batches(respond, s, total)|
    ensures Batches(respond, s, Min(lo + BatchSize - 1, total)) == Batches(respond, s, total)[..m + 1]
    decreases m
  {
    var hi := Min(lo + BatchSize - 1, total);
    if m == 0 {
      assert Batches(respond, s + BatchSize, hi) == [];
    } else {
      var next := s + BatchSize;
      RejectionHaltsScan(respond, accepts, next, j0 + 1, total, m - 1, lo);
      var first := Kept(respond, s, Min(s + BatchSize - 1, total));
      assert Batches(respond, s, hi) == [first] + Batches(respond, next, hi);
      assert Batches(respond, s, total) == [first] + Batches(respond, next, total);
    }
  }

  /**
   * The run of the example where IDs 1..150 are scanned and the first
   * insert is rejected: as written it requests IDs 1..100 only, makes one
   * insert, and never reaches the summary; with the error logged as text it
   * requests all 150 IDs and makes both inserts.
   */
  lemma FirstInsertRejectedExample(respond: int -> Response, accepts: nat -> bool)
    requires !accepts(0)
    ensures StopAt(ErrorObject, accepts, 1, 0, 150) == 100
    ensures !Completes(ErrorObject, accepts, 1, 0, 150)
    ensures |Batches(respond, 1, 100)| == 1 && |Batches(respond, 1, 150)| == 2
    ensures StopAt(ErrorText, accepts, 1, 0, 150) == 150 && Completes(ErrorText, accepts, 1, 0, 150)
  {
    assert Batches(respond, 101, 100) == [];
    assert Batches(respond, 201, 150) == [];
    assert Completes(ErrorText, accepts, 201, 2, 150);
  }

  /**
   * With the error logged as text, `saveData` always returns: every scan
   * completes and requests every ID up to `total`, whatever the store
   * answers.
   */
  lemma {:induction false} TextLogCompletes(accepts: nat -> bool, s: int, j: nat, total: int)
    ensures Completes(ErrorText, accepts, s, j, total)
    ensures StopAt(ErrorText, accepts, s, j, total) == total
    decreases total - s
  {
    if s <= total {
      TextLogCompletes(accepts, s + BatchSize, j + 1, total);
    }
  }

  /** End-of-run summary: previous store size, new records, and their sum. */
  datatype RunSummary = RunSummary(previous: int, newData: nat, total: int)

  function Summarize(tvLength: int, newDataCounter: seq<Record>): RunSummary {
    RunSummary(tvLength, |newDataCounter|, tvLength + |newDataCounter|)
  }

  /**
   * The reported total counts every kept record. With the error logged as
   * text a run reaches the summary even after rejected inserts, and the
   * total then counts their records too: it never falls short of what the
   * store holds, and matches it when every insert is accepted. As written, a
   * run reaches the summary only when every insert was accepted, so the
   * total it reports is exactly the previous count plus what the store kept.
   */
  lemma ReportedTotal(respond: int -> Response, accepts: nat -> bool, tvLength: int, start: int, total: int)
    ensures var s := Summarize(tvLength, Kept(respond, start, total));
            var bs := Batches(respond, start, total);
            s.total >= tvLength + |Committed(bs, accepts)| &&
            ((forall j :: 0 <= j < |bs| ==> accepts(j)) ==> s.total == tvLength + |Committed(bs, accepts)|) &&
            (Completes(ErrorObject, accepts, start, 0, total) ==> s.total == tvLength + |Committed(bs, accepts)|)
  {
    var bs := Batches(respond, start, total);
    BatchesPartition(respond, start, total);
    CommittedWithinFlatten(bs, accepts);
    CompletesIff(respond, ErrorObject, accepts, start, 0, total);
    if Completes(ErrorObject, accepts, start, 0, total) {
      assert forall j :: 0 <= j < |bs| ==> accepts(j) by {
        forall j | 0 <= j < |bs| ensures accepts(j) {
          assert Resolves(ErrorObject, accepts, j);
        }
      }
    }
  }
}
