/**
 * The ingestion driver: the `for` loop of `main`, which fetches IDs one at a
 * time, buffers the records, and flushes the buffer to the store every 100
 * attempted IDs and at the last ID, unless that ID already closed a window.
 * A flush whose `saveData` does not return ends the run.
 */
module Ingestion {
  import opened Wrappers
  import opened Fetcher
  import opened Batching

  /**
   * One run of the driver. The remote API and the store's answer to each
   * insert are given when the driver is built; the driver is used for one run.
   */
  class Ingest {
    /** The remote API: what `axios.get` does for each ID. */
    const respond: int -> Response
    /** The store: whether the j-th `insertMany` of the run succeeds. */
    const accepts: nat -> bool
    /** How the catch block of `saveData` writes the error of a rejected insert. */
    const errorLog: ErrorLog

    /** The buffer of records awaiting the next flush. */
    var allData: seq<Record>
    /** Every record fetched in this run, whatever became of its batch. */
    var newDataCounter: seq<Record>
    /** IDs attempted since the last flush. */
    var count: int

    /** Every batch handed to `insertMany`, in call order. */
    var submitted: seq<seq<Record>>
    /** The records the store accepted in this run. */
    var stored: seq<Record>
    /** Every ID requested from the remote API, in request order. */
    ghost var attempted: seq<int>

    constructor (respond: int -> Response, accepts: nat -> bool, errorLog: ErrorLog)
      ensures this.respond == respond && this.accepts == accepts && this.errorLog == errorLog
      ensures allData == [] && newDataCounter == [] && count == 0
      ensures submitted == [] && stored == [] && attempted == []
    {
      this.respond := respond;
      this.accepts := accepts;
      this.errorLog := errorLog;
      allData, newDataCounter, count := [], [], 0;
      submitted, stored := [], [];
      attempted := [];
    }

    /**
     * `saveData`: hand the batch to the store; only an accepted batch
     * reaches it. `resolved` says whether the call returns: always after an
     * accepted insert, and after a rejected one only when the catch block
     * manages to write its log.
     */
    method SaveData(data: seq<Record>) returns (resolved: bool)
      modifies this`submitted, this`stored
      ensures submitted == old(submitted) + [data]
      ensures stored == old(stored) + (if accepts(|old(submitted)|) then data else [])
      ensures resolved <==> Resolves(errorLog, accepts, |old(submitted)|)
    {
      var accepted := accepts(|submitted|);
      submitted := submitted + [data];
      if accepted {
        stored := stored + data;
        resolved := true;
      } else {
        // the catch block writes the error to a file: `fs` refuses the error
        // object itself, and that refusal leaves `saveData`
        resolved := errorLog == ErrorText;
      }
    }

    /**
     * One pass of the loop body up to the flush test: request ID `i` once,
     * count the attempt, and keep the record when `fetchData` gave one.
     */
    method Visit(i: int)
      modifies this`allData, this`newDataCounter, this`count, this`attempted
      ensures attempted == old(attempted) + [i]
      ensures count == old(count) + 1
      ensures allData == old(allData) + KeptAt(respond, i)
      ensures newDataCounter == old(newDataCounter) + KeptAt(respond, i)
    {
      var data := FetchData(respond(i));
      attempted := attempted + [i];
      count := count + 1;

      if Truthy(data) {
        allData := allData + [data.doc];
        newDataCounter := newDataCounter + [data.doc];
      }
    }

    /**
     * A flush (the body of either flush branch): hand the buffer, which
     * holds the records of the current window `b`..`i`, to the store, and
     * when `saveData` returns, empty the buffer and restart the attempt
     * count. The flush adds exactly the reference batch of that window.
     * When `saveData` does not return, the buffer and the count are left
     * as they were.
     */
    method Flush(i: int, ghost start: int, ghost k: nat, ghost b: int) returns (resolved: bool)
      requires b == start + BatchSize * k && b <= i < b + BatchSize
      requires allData == Kept(respond, b, i)
      requires submitted == Batches(respond, start, b - 1) && |submitted| == k
      requires stored == Committed(submitted, accepts)
      modifies this`allData, this`count, this`submitted, this`stored
      ensures submitted == Batches(respond, start, i) && |submitted| == k + 1
      ensures stored == Committed(submitted, accepts)
      ensures resolved <==> Resolves(errorLog, accepts, k)
      ensures resolved ==> allData == [] && count == 0
      ensures !resolved ==> allData == old(allData) && count == old(count)
    {
      BatchesStep(respond, start, k, b, i);
      CommittedSnoc(submitted, allData, accepts);
      resolved := SaveData(allData);
      if !resolved {
        return;
      }
      allData := [];
      count := 0;
    }

    /**
     * What the loop of `main` has done after requesting IDs `start`..`prev`:
     * those IDs were requested in order, their records counted, the windows
     * up to `flushed` handed to the store, and the store holds the accepted
     * ones.
     */
    ghost predicate Scanned(start: int, prev: int, flushed: int)
      reads this
    {
      attempted == IdRange(start, prev) &&
      newDataCounter == Kept(respond, start, prev) &&
      submitted == Batches(respond, start, flushed) &&
      stored == Committed(submitted, accepts)
    }

    /** The buffer holds the records of the current window `b`..`prev`, and `count` its size in IDs. */
    ghost predicate Buffered(b: int, prev: int)
      reads this
    {
      b <= prev + 1 && count == prev - b + 1 && allData == Kept(respond, b, prev)
    }

    /**
     * The loop invariant of `main` while it is scanning: IDs
     * `start`..`prev` have been requested and handed on as `Scanned` says,
     * `k` windows have been flushed and the current one starts at `b`, and
     * the rest of the scan from `b` ends where the whole scan ends.
     */
    ghost predicate Scanning(start: int, prev: int, b: int, k: nat, total: int)
      reads this
    {
      Scanned(start, prev, b - 1) && Buffered(b, prev) && start <= b &&
      0 <= count < BatchSize && |submitted| == k &&
      (prev < total ==> b == start + BatchSize * k) &&
      (prev >= total ==> count == 0) &&
      StopAt(errorLog, accepts, start, 0, total) == StopAt(errorLog, accepts, b, k, total) &&
      (Completes(errorLog, accepts, start, 0, total) <==> Completes(errorLog, accepts, b, k, total))
    }

    /**
     * The flush test that ends each pass, after ID `i` has been requested
     * and buffered: flush after 100 attempted IDs, or at the last ID with
     * fewer. When that flush returns, or there was none, the loop invariant
     * holds at `i` with the window starting at `b'` after `k'` flushes. When
     * the flush does not return, the run ends: `i` is where the whole scan
     * stops, the window's batch was submitted, and the buffer and the count
     * are left as they were.
     */
    method FlushWhenDue(i: int, total: int, ghost start: int, ghost k: nat, ghost b: int)
      returns (resolved: bool, ghost due: bool, ghost b': int, ghost k': nat)
      requires i <= total && b == start + BatchSize * k && start <= b <= i
      requires Scanned(start, i, b - 1) && Buffered(b, i) && count <= BatchSize && |submitted| == k
      requires StopAt(errorLog, accepts, start, 0, total) == StopAt(errorLog, accepts, b, k, total)
      requires Completes(errorLog, accepts, start, 0, total) <==> Completes(errorLog, accepts, b, k, total)
      modifies this`allData, this`count, this`submitted, this`stored
      ensures due <==> old(count) == BatchSize || i == total
      ensures !due ==> resolved && b' == b && k' == k
      ensures due ==> b' == i + 1 && k' == k + 1 && (resolved <==> Resolves(errorLog, accepts, k))
      ensures resolved ==> Scanning(start, i, b', k', total)
      ensures !resolved ==>
                Scanned(start, i, i) && allData == old(allData) && count == old(count) &&
                i == StopAt(errorLog, accepts, start, 0, total) &&
                !Completes(errorLog, accepts, start, 0, total)
    {
      // the full-batch branch and the last-ID branch differ only in their
      // log message, so they share one flush
      var flush := count == BatchSize || (count < BatchSize && i == total);
      due := flush;
      if flush {
        resolved := Flush(i, start, k, b);
        StopAtFlush(errorLog, accepts, b, k, i, total);
        b', k' := i + 1, k + 1;
      } else {
        resolved, b', k' := true, b, k;
      }
    }

    /**
     * One pass of the loop body (fetch, count, buffer, flush test) for an
     * ID `i` up to `total`, from the loop invariant at `i - 1`. It closes
     * the current window exactly when 100 IDs have been attempted in it or
     * `i` is the last ID. When that flush returns, or there was none, the
     * invariant carries over to `i` with the window starting at `b'` after
     * `k'` flushes. When the flush does not return, `i` is where the whole
     * scan stops, and the window's batch was submitted.
     */
    method Step(i: int, total: int, ghost start: int, ghost prev: int, ghost k: nat, ghost b: int)
      returns (resolved: bool, ghost due: bool, ghost b': int, ghost k': nat)
      requires i <= total && Scanning(start, prev, b, k, total) && prev == i - 1
      modifies this`allData, this`newDataCounter, this`count, this`attempted, this`submitted, this`stored
      ensures due <==> old(count) + 1 == BatchSize || i == total
      ensures !due ==> resolved && b' == b && k' == k
      ensures due ==> b' == i + 1 && k' == k + 1 && (resolved <==> Resolves(errorLog, accepts, k))
      ensures resolved ==> Scanning(start, i, b', k', total)
      ensures !resolved ==>
                Scanned(start, i, i) && i == StopAt(errorLog, accepts, start, 0, total) &&
                !Completes(errorLog, accepts, start, 0, total)
    {
      Visit(i);
      assert allData == Kept(respond, b, i);
      assert newDataCounter == Kept(respond, start, i);
      assert attempted == IdRange(start, i);
      resolved, due, b', k' := FlushWhenDue(i, total, start, k, b);
    }

    /**
     * The start of `main`: an empty buffer, no new records and a zero count,
     * and the scan starting at `lastIdFetched`, or at 1 when that is 0.
     * Nothing has been requested yet, so the loop invariant holds before the
     * first ID.
     */
    method Begin(lastIdFetched: int, total: int) returns (start: int)
      requires submitted == [] && stored == [] && attempted == []
      modifies this`allData, this`newDataCounter, this`count
      ensures start == StartId(lastIdFetched)
      ensures Scanning(start, start - 1, start, 0, total)
    {
      allData, newDataCounter, count := [], [], 0;
      start := StartId(lastIdFetched);
    }

    /**
     * When the loop of `main` has gone past `total`, every flush returned:
     * the scan completed, every ID up to `total` was requested, and the
     * buffer is empty.
     */
    lemma Finished(start: int, prev: int, b: int, k: nat, total: int)
      requires Scanning(start, prev, b, k, total) && (prev == total || total < start == prev + 1)
      ensures Completes(errorLog, accepts, start, 0, total)
      ensures StopAt(errorLog, accepts, start, 0, total) == total
      ensures attempted == IdRange(start, total)
      ensures submitted == Batches(respond, start, total)
      ensures newDataCounter == Kept(respond, start, total)
      ensures allData == [] && count == 0
    {
      assert b > total;
    }

    /**
     * `main`: scan `StartId(lastIdFetched)`..`total`, every ID requested
     * once and in order, one batch per window of 100 attempted IDs, until
     * the scan is over or a flush does not return. The scan ends at
     * `StopAt`: `total` when every flush returns, otherwise the end of the
     * window of the first flush that does not. The batches submitted are
     * exactly the reference batches up to there. Only a completed scan
     * empties the buffer and produces the summary, which counts every
     * fetched record.
     */
    method Run(tvLength: int, lastIdFetched: int, total: int) returns (summary: Option<RunSummary>)
      requires submitted == [] && stored == [] && attempted == []
      modifies this
      ensures var start := StartId(lastIdFetched);
              var last := StopAt(errorLog, accepts, start, 0, total);
              attempted == IdRange(start, last) &&
              submitted == Batches(respond, start, last) &&
              newDataCounter == Kept(respond, start, last)
      ensures stored == Committed(submitted, accepts)
      ensures Completes(errorLog, accepts, StartId(lastIdFetched), 0, total) ==>
                allData == [] && count == 0 && summary == Some(Summarize(tvLength, newDataCounter))
      ensures !Completes(errorLog, accepts, StartId(lastIdFetched), 0, total) ==> summary == None
    {
      var start := Begin(lastIdFetched, total);
      var i := start;
      // b is the first ID of the current window, k windows precede it, and
      // prev is the last ID requested so far
      ghost var b, k: nat, prev := start, 0, start - 1;
      while i <= total
        invariant Scanning(start, prev, b, k, total) && prev == i - 1
        invariant i <= total + 1 || i == start
        decreases total - i
      {
        var resolved;
        ghost var due;
        resolved, due, b, k := Step(i, total, start, prev, k, b);
        if !resolved {
          // the rejection leaves `main`: no later ID, no summary
          return None;
        }
        i, prev := i + 1, i;
      }
      Finished(start, prev, b, k, total);
      summary := Some(Summarize(tvLength, newDataCounter));
    }
  }
}
