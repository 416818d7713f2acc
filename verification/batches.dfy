/**
 * The batch loop of the database scraper: the listing is read from the
 * REST service in batches of `batch_size` records from a start offset, each
 * batch is tracked as a row of the progress log, and every building a
 * batch returns is inserted.  The REST service, the insertions and the
 * total count are oracles; the database is a class holding the progress
 * rows and the inserted buildings.
 */
module Batches {
  import opened Wrappers
  import opened Text

  /** A building as inserted; the mapping of attributes to columns is not modelled. */
  datatype Building = Building(attributes: map<string, string>)

  /** What the REST query for a batch gives: an exception, or a JSON object that may lack "features". */
  datatype Response = Raised | Json(features: Option<seq<Building>>)

  datatype Status = InProgress | Completed

  /** A row of the `scraping_progress` table. */
  datatype ProgressRow = ProgressRow(
    batchStart: int, batchEnd: int,
    recordsProcessed: nat, successCount: nat, errorCount: nat,
    status: Status)

  /** `success_count`, `error_count` and `processed_count`. */
  datatype Counts = Counts(success: nat, errors: nat, processed: nat)

  /** One run of the batch loop: the total count, the start offset, the batch size and the two oracles. */
  datatype Plan = Plan(total: int, start: int, size: int, fetch: int -> Response, insertOk: Building -> bool)

  function Min(a: int, b: int): int { if a <= b then a else b }

  // ---------------------------------------------------------------------
  // Batch ranges

  /** `total_batches`, with Python's floor division (the divisor is positive). */
  function TotalBatches(total: int, start: int, size: int): int
    requires size > 0
  {
    (total - start + size - 1) / size
  }

  function BatchStart(start: int, size: int, k: nat): int
  {
    start + k * size
  }

  /** The last offset of batch `k`, clipped to the last record. */
  function BatchEnd(total: int, start: int, size: int, k: nat): int
  {
    Min(BatchStart(start, size, k) + size - 1, total - 1)
  }

  /** How many times the loop body runs: `range` of a negative count is empty. */
  function NumBatches(p: Plan): nat
    requires p.size > 0
  {
    var n := TotalBatches(p.total, p.start, p.size);
    if n < 0 then 0 else n
  }

  lemma MulMono(a: int, b: int, c: int)
    requires a <= b && c >= 0
    ensures a * c <= b * c
  {
    assert b * c - a * c == (b - a) * c;
  }

  /** `total_batches` is the ceiling of the number of remaining records over the batch size. */
  lemma TotalBatchesIsCeiling(total: int, start: int, size: int)
    requires size > 0 && start < total
    ensures var n := TotalBatches(total, start, size);
      n >= 1 && (n - 1) * size < total - start <= n * size
  {
    var n := TotalBatches(total, start, size);
    var r := (total - start + size - 1) % size;
    assert n * size + r == total - start + size - 1;
    assert (n - 1) * size == n * size - size;
    if n < 1 {
      MulMono(n, 0, size);
    }
  }

  /** No batch runs once the start offset has reached the total. */
  lemma NothingLeft(total: int, start: int, size: int)
    requires size > 0 && start >= total
    ensures TotalBatches(total, start, size) <= 0
  {
    var n := TotalBatches(total, start, size);
    var r := (total - start + size - 1) % size;
    assert n * size + r == total - start + size - 1;
    if n >= 1 {
      MulMono(1, n, size);
    }
  }

  /** Every batch that runs lies within `[start_offset, total_count - 1]` and is non-empty. */
  lemma BatchBounds(total: int, start: int, size: int, k: nat)
    requires size > 0 && k < TotalBatches(total, start, size)
    ensures start <= BatchStart(start, size, k) <= BatchEnd(total, start, size, k) <= total - 1
  {
    if start >= total {
      NothingLeft(total, start, size);
    }
    var n := TotalBatches(total, start, size);
    TotalBatchesIsCeiling(total, start, size);
    MulMono(k, n - 1, size);
    MulMono(0, k, size);
  }

  /** Each batch ends just before the next one starts. */
  lemma Contiguous(total: int, start: int, size: int, k: nat)
    requires size > 0 && k + 1 < TotalBatches(total, start, size)
    ensures BatchEnd(total, start, size, k) + 1 == BatchStart(start, size, k + 1)
  {
    BatchBounds(total, start, size, k + 1);
    assert (k + 1) * size == k * size + size;
  }

  /** Earlier batches end before later ones start, so no offset is fetched twice in one run. */
  lemma Disjoint(total: int, start: int, size: int, j: nat, k: nat)
    requires size > 0 && j < k < TotalBatches(total, start, size)
    ensures BatchEnd(total, start, size, j) < BatchStart(start, size, k)
  {
    assert (j + 1) * size == j * size + size;
    MulMono(j + 1, k, size);
  }

  /** The last batch ends at the last record. */
  lemma LastBatchEnds(total: int, start: int, size: int)
    requires size > 0 && TotalBatches(total, start, size) >= 1
    ensures var n := TotalBatches(total, start, size);
      BatchEnd(total, start, size, n - 1) == total - 1
  {
    if start >= total {
      NothingLeft(total, start, size);
    }
    TotalBatchesIsCeiling(total, start, size);
  }

  /** The batch an offset from the start offset to the last record falls in. */
  lemma BatchOf(total: int, start: int, size: int, i: int) returns (k: nat)
    requires size > 0 && start <= i <= total - 1
    ensures k < TotalBatches(total, start, size)
    ensures BatchStart(start, size, k) <= i <= BatchEnd(total, start, size, k)
  {
    k := (i - start) / size;
    var r := (i - start) % size;
    assert k * size + r == i - start;
    var n := TotalBatches(total, start, size);
    TotalBatchesIsCeiling(total, start, size);
    if k >= n {
      MulMono(n, k, size);
    }
  }

  /** The batches together cover exactly the offsets from the start offset to the last record. */
  lemma Coverage(total: int, start: int, size: int, i: int)
    requires size > 0
    ensures (exists k: nat :: k < TotalBatches(total, start, size) && BatchStart(start, size, k) <= i <= BatchEnd(total, start, size, k))
      <==> start <= i <= total - 1
  {
    if exists k: nat :: k < TotalBatches(total, start, size) && BatchStart(start, size, k) <= i <= BatchEnd(total, start, size, k) {
      var k: nat :| k < TotalBatches(total, start, size) && BatchStart(start, size, k) <= i <= BatchEnd(total, start, size, k);
      BatchBounds(total, start, size, k);
    }
    if start <= i <= total - 1 {
      var k := BatchOf(total, start, size, i);
    }
  }

  // ---------------------------------------------------------------------
  // Resuming

  /** `MAX(batch_end)` over the completed rows, `None` when there is none. */
  function MaxCompletedEnd(rows: seq<ProgressRow>): Option<int>
  {
    if |rows| == 0 then None
    else
      var prev := MaxCompletedEnd(rows[..|rows| - 1]);
      var row := rows[|rows| - 1];
      if row.status != Completed then prev
      else if prev.None? || prev.value < row.batchEnd then Some(row.batchEnd)
      else prev
  }

  /** `get_last_processed_offset`: the maximum, or 0 when it is missing (or is 0). */
  function ResumeOffset(rows: seq<ProgressRow>): int
  {
    match MaxCompletedEnd(rows)
    case None => 0
    case Some(m) => m
  }

  lemma {:induction false} MaxCompletedEndIsMax(rows: seq<ProgressRow>)
    ensures MaxCompletedEnd(rows).None? <==> forall j :: 0 <= j < |rows| ==> rows[j].status != Completed
    ensures MaxCompletedEnd(rows).Some? ==>
      && (forall j :: 0 <= j < |rows| && rows[j].status == Completed ==> rows[j].batchEnd <= MaxCompletedEnd(rows).value)
      && (exists j :: 0 <= j < |rows| && rows[j].status == Completed && rows[j].batchEnd == MaxCompletedEnd(rows).value)
  {
    if |rows| > 0 {
      var init := rows[..|rows| - 1];
      MaxCompletedEndIsMax(init);
      assert forall j :: 0 <= j < |init| ==> init[j] == rows[j];
    }
  }

  /**
   * The resume offset is 0 without completed rows and otherwise the largest
   * end of a completed batch; the first resumed batch starts at that offset,
   * so the record there is fetched a second time.
   */
  lemma ResumeOffsetFacts(rows: seq<ProgressRow>, size: int)
    ensures (forall j :: 0 <= j < |rows| ==> rows[j].status != Completed) ==> ResumeOffset(rows) == 0
    ensures forall j :: 0 <= j < |rows| && rows[j].status == Completed ==> rows[j].batchEnd <= ResumeOffset(rows)
    ensures (exists j :: 0 <= j < |rows| && rows[j].status == Completed) ==>
      exists j :: 0 <= j < |rows| && rows[j].status == Completed && rows[j].batchEnd == BatchStart(ResumeOffset(rows), size, 0)
  {
    MaxCompletedEndIsMax(rows);
  }

  // ---------------------------------------------------------------------
  // Fetching a batch

  /** The buildings `fetch_batch` returns for a response: none on an exception or without "features". */
  function FetchedOf(response: Response): seq<Building>
  {
    match response
    case Raised => []
    case Json(None) => []
    case Json(Some(features)) => features
  }

  /** `fetch_batch`: the buildings, one per feature, and their number. */
  method FetchBatch(response: Response) returns (buildings: seq<Building>, count: nat)
    ensures count == |buildings| && buildings == FetchedOf(response)
    ensures response.Raised? || response.features.None? ==> buildings == [] && count == 0
  {
    if response.Raised? || response.features.None? {
      return [], 0;
    }
    var features := response.features.value;
    buildings := [];
    for i := 0 to |features|
      invariant buildings == features[..i]
    {
      buildings := buildings + [features[i]];
    }
    assert features[..|features|] == features;
    count := |buildings|;
  }

  // ---------------------------------------------------------------------
  // The database

  /** The buildings of `bs` whose insertion succeeds, in order. */
  function Kept(bs: seq<Building>, ok: Building -> bool): (r: seq<Building>)
    ensures |r| <= |bs|
  {
    if |bs| == 0 then []
    else Kept(bs[..|bs| - 1], ok) + (if ok(bs[|bs| - 1]) then [bs[|bs| - 1]] else [])
  }

  lemma {:induction false} KeptLength(bs: seq<Building>, ok: Building -> bool)
    ensures forall b :: b in Kept(bs, ok) ==> b in bs && ok(b)
  {
    if |bs| > 0 {
      KeptLength(bs[..|bs| - 1], ok);
    }
  }

  /** The progress log and the `buildings` table. */
  class Database {
    var rows: seq<ProgressRow>
    var buildings: seq<Building>

    constructor ()
      ensures rows == [] && buildings == []
    {
      rows := [];
      buildings := [];
    }

    /** `start_batch`: a new in-progress row, whose id is returned. */
    method StartBatch(batchStart: int, batchEnd: int) returns (id: nat)
      modifies this
      ensures id == |old(rows)|
      ensures rows == old(rows) + [ProgressRow(batchStart, batchEnd, 0, 0, 0, InProgress)]
      ensures buildings == old(buildings)
    {
      id := |rows|;
      rows := rows + [ProgressRow(batchStart, batchEnd, 0, 0, 0, InProgress)];
    }

    /** `complete_batch`: the row's counts are set and it is marked completed; an unknown id changes nothing. */
    method CompleteBatch(id: nat, recordsProcessed: nat, successCount: nat, errorCount: nat)
      modifies this
      ensures id < |old(rows)| ==> rows == old(rows)[id := old(rows)[id].(
        recordsProcessed := recordsProcessed, successCount := successCount,
        errorCount := errorCount, status := Completed)]
      ensures id >= |old(rows)| ==> rows == old(rows)
      ensures buildings == old(buildings)
    {
      if id < |rows| {
        rows := rows[id := rows[id].(
          recordsProcessed := recordsProcessed, successCount := successCount,
          errorCount := errorCount, status := Completed)];
      }
    }

    /** `insert_building`: `succeeds` says whether the insert raised. */
    method InsertBuilding(b: Building, succeeds: bool) returns (ok: bool)
      modifies this
      ensures ok == succeeds
      ensures buildings == old(buildings) + (if succeeds then [b] else [])
      ensures rows == old(rows)
    {
      if succeeds {
        buildings := buildings + [b];
      }
      ok := succeeds;
    }
  }

  /** The inner loop over a batch's buildings: `batch_success` and `batch_errors`. */
  method InsertBatch(db: Database, bs: seq<Building>, ok: Building -> bool) returns (batchSuccess: nat, batchErrors: nat)
    modifies db
    ensures db.buildings == old(db.buildings) + Kept(bs, ok)
    ensures db.rows == old(db.rows)
    ensures batchSuccess == |Kept(bs, ok)| && batchSuccess + batchErrors == |bs|
  {
    batchSuccess, batchErrors := 0, 0;
    for i := 0 to |bs|
      invariant db.buildings == old(db.buildings) + Kept(bs[..i], ok)
      invariant db.rows == old(db.rows)
      invariant batchSuccess == |Kept(bs[..i], ok)| && batchSuccess + batchErrors == i
    {
      assert bs[..i + 1][..i] == bs[..i];
      var inserted := db.InsertBuilding(bs[i], ok(bs[i]));
      if inserted {
        batchSuccess := batchSuccess + 1;
      } else {
        batchErrors := batchErrors + 1;
      }
    }
    assert bs[..|bs|] == bs;
  }

  // ---------------------------------------------------------------------
  // The batch loop

  /** The buildings batch `k` of a run returns. */
  function Fetched(p: Plan, k: nat): seq<Building>
  {
    FetchedOf(p.fetch(BatchStart(p.start, p.size, k)))
  }

  /** The completed progress row of batch `k`: (0, 0, 1) when it returned nothing. */
  function RowOf(p: Plan, k: nat): ProgressRow
  {
    var bs := Fetched(p, k);
    var s := BatchStart(p.start, p.size, k);
    var e := BatchEnd(p.total, p.start, p.size, k);
    if |bs| == 0 then ProgressRow(s, e, 0, 0, 1, Completed)
    else ProgressRow(s, e, |bs|, |Kept(bs, p.insertOk)|, |bs| - |Kept(bs, p.insertOk)|, Completed)
  }

  /** The rows the first `n` batches add to the log. */
  function Rows(p: Plan, n: nat): (r: seq<ProgressRow>)
    ensures |r| == n
  {
    if n == 0 then [] else Rows(p, n - 1) + [RowOf(p, n - 1)]
  }

  /** The buildings the first `n` batches insert. */
  function Stored(p: Plan, n: nat): seq<Building>
  {
    if n == 0 then [] else Stored(p, n - 1) + Kept(Fetched(p, n - 1), p.insertOk)
  }

  /** The sums of the success, error and processed columns of some rows. */
  function Totals(rows: seq<ProgressRow>): Counts
  {
    if |rows| == 0 then Counts(0, 0, 0)
    else
      var t := Totals(rows[..|rows| - 1]);
      var row := rows[|rows| - 1];
      Counts(t.success + row.successCount, t.errors + row.errorCount, t.processed + row.recordsProcessed)
  }

  lemma TotalsStep(rows: seq<ProgressRow>, row: ProgressRow)
    ensures Totals(rows + [row]) == Counts(Totals(rows).success + row.successCount,
      Totals(rows).errors + row.errorCount, Totals(rows).processed + row.recordsProcessed)
  {
    assert (rows + [row])[..|rows|] == rows;
  }

  /** The body of the batch loop for batch `k`: one completed row, and the buildings whose insertion succeeds. */
  method ProcessBatch(db: Database, p: Plan, k: nat) returns (row: ProgressRow)
    modifies db
    ensures row == RowOf(p, k)
    ensures db.rows == old(db.rows) + [row]
    ensures db.buildings == old(db.buildings) + Kept(Fetched(p, k), p.insertOk)
  {
    var batchStart := p.start + k * p.size;
    var batchEnd := Min(batchStart + p.size - 1, p.total - 1);
    var id := db.StartBatch(batchStart, batchEnd);
    var buildings, fetchedCount := FetchBatch(p.fetch(batchStart));
    if |buildings| == 0 {
      db.CompleteBatch(id, 0, 0, 1);
    } else {
      var batchSuccess, batchErrors := InsertBatch(db, buildings, p.insertOk);
      db.CompleteBatch(id, fetchedCount, batchSuccess, batchErrors);
    }
    row := db.rows[id];
    assert db.rows == old(db.rows) + [row];
  }

  /** One more batch extends the log, the stored buildings and the column sums by that batch's share. */
  lemma RunStep(p: Plan, k: nat, rows0: seq<ProgressRow>, stored0: seq<Building>,
                rows1: seq<ProgressRow>, stored1: seq<Building>, row: ProgressRow)
    requires rows1 == rows0 + Rows(p, k) && stored1 == stored0 + Stored(p, k)
    requires row == RowOf(p, k)
    ensures rows1 + [row] == rows0 + Rows(p, k + 1)
    ensures stored1 + Kept(Fetched(p, k), p.insertOk) == stored0 + Stored(p, k + 1)
    ensures Totals(Rows(p, k + 1)) == Counts(Totals(Rows(p, k)).success + row.successCount,
      Totals(Rows(p, k)).errors + row.errorCount, Totals(Rows(p, k)).processed + row.recordsProcessed)
  {
    TotalsStep(Rows(p, k), row);
    AppendAssoc(rows0, Rows(p, k), [row]);
    AppendAssoc(stored0, Stored(p, k), Kept(Fetched(p, k), p.insertOk));
  }

  /** The batch loop of `scrape_all`, with its three counters. */
  method RunBatches(db: Database, p: Plan) returns (counts: Counts)
    requires p.size > 0
    modifies db
    ensures db.rows == old(db.rows) + Rows(p, NumBatches(p))
    ensures db.buildings == old(db.buildings) + Stored(p, NumBatches(p))
    ensures counts == Totals(Rows(p, NumBatches(p)))
  {
    var totalBatches := (p.total - p.start + p.size - 1) / p.size;
    ghost var rows0, stored0 := db.rows, db.buildings;
    counts := Counts(0, 0, 0);
    var batchNum := 0;
    while batchNum < totalBatches
      invariant 0 <= batchNum <= NumBatches(p)
      invariant db.rows == rows0 + Rows(p, batchNum)
      invariant db.buildings == stored0 + Stored(p, batchNum)
      invariant counts == Totals(Rows(p, batchNum))
    {
      ghost var rows1, stored1 := db.rows, db.buildings;
      var row := ProcessBatch(db, p, batchNum);
      RunStep(p, batchNum, rows0, stored0, rows1, stored1, row);
      counts := Counts(counts.success + row.successCount, counts.errors + row.errorCount, counts.processed + row.recordsProcessed);
      batchNum := batchNum + 1;
    }
  }

  /**
   * `scrape_all`: false without a usable total count; otherwise every batch
   * adds one completed row to the log and inserts the buildings whose
   * insertion succeeds, the counters are the sums of the new rows' columns,
   * and the result says whether any building was inserted.
   */
  method ScrapeAll(db: Database, totalCount: Option<int>, resume: bool, size: int,
                   fetch: int -> Response, insertOk: Building -> bool) returns (ok: bool, counts: Counts)
    requires size > 0
    modifies db
    ensures totalCount.None? || totalCount.value == 0 ==>
      !ok && counts == Counts(0, 0, 0) && db.rows == old(db.rows) && db.buildings == old(db.buildings)
    ensures totalCount.Some? && totalCount.value != 0 ==>
      var p := Plan(totalCount.value, if resume then ResumeOffset(old(db.rows)) else 0, size, fetch, insertOk);
      && db.rows == old(db.rows) + Rows(p, NumBatches(p))
      && db.buildings == old(db.buildings) + Stored(p, NumBatches(p))
      && counts == Totals(Rows(p, NumBatches(p)))
      && ok == (counts.success > 0)
  {
    if totalCount.None? || totalCount.value == 0 {
      return false, Counts(0, 0, 0);
    }
    var total := totalCount.value;
    var start := 0;
    if resume {
      start := ResumeOffset(db.rows);
    }
    var p := Plan(total, start, size, fetch, insertOk);
    counts := RunBatches(db, p);
    ok := counts.success > 0;
  }

  // ---------------------------------------------------------------------
  // Properties of a run

  lemma {:induction false} RowsAt(p: Plan, n: nat, k: nat)
    requires k < n
    ensures Rows(p, n)[k] == RowOf(p, k)
  {
    if k < n - 1 {
      RowsAt(p, n - 1, k);
    } else if n > 1 {
      RowsAt(p, n - 1, 0);
    }
  }

  /**
   * Every row a run adds is completed and covers its batch's range inside
   * `[start_offset, total_count - 1]`; an empty batch is recorded as
   * (0, 0, 1), and otherwise the successes and errors add up to the
   * number of buildings fetched.
   */
  lemma RunRows(p: Plan, k: nat)
    requires p.size > 0 && k < NumBatches(p)
    ensures var row := Rows(p, NumBatches(p))[k];
      && row.status == Completed
      && row.batchStart == BatchStart(p.start, p.size, k) && row.batchEnd == BatchEnd(p.total, p.start, p.size, k)
      && p.start <= row.batchStart <= row.batchEnd <= p.total - 1
      && (Fetched(p, k) == [] ==> row.recordsProcessed == 0 && row.successCount == 0 && row.errorCount == 1)
      && (Fetched(p, k) != [] ==> row.recordsProcessed == |Fetched(p, k)| == row.successCount + row.errorCount)
  {
    RowsAt(p, NumBatches(p), k);
    BatchBounds(p.total, p.start, p.size, k);
    KeptLength(Fetched(p, k), p.insertOk);
  }

  /** The number of batches among the first `n` that returned nothing. */
  function EmptyBatches(p: Plan, n: nat): nat
  {
    if n == 0 then 0 else EmptyBatches(p, n - 1) + (if Fetched(p, n - 1) == [] then 1 else 0)
  }

  /**
   * The counters balance: successes plus errors are the buildings processed
   * plus one per empty batch, and the successes are the buildings inserted.
   */
  lemma {:induction false} CountersBalance(p: Plan, n: nat)
    ensures var t := Totals(Rows(p, n));
      t.success + t.errors == t.processed + EmptyBatches(p, n) && t.success == |Stored(p, n)|
  {
    if n > 0 {
      CountersBalance(p, n - 1);
      TotalsStep(Rows(p, n - 1), RowOf(p, n - 1));
      KeptLength(Fetched(p, n - 1), p.insertOk);
    }
  }
}
