/** server/import-to-db.js: the knowledge items are cut into batches of 50 and
    posted one batch at a time to the bulk endpoint; the per-batch counts are
    added up. The endpoint is a parameter `respond(i, request)` that gives the
    response to the i-th request (0-based), so the server's own state between
    calls stays abstract. Reading the JSON file, console output and the pause
    between batches are outside the model. */
module ImportToDb {
  import opened Wrappers

  const BatchSize: nat := 50

  function Min(a: int, b: int): int {
    if a <= b then a else b
  }

  /** The batches laid end to end. */
  function Flatten<T>(batches: seq<seq<T>>): seq<T> {
    if batches == [] then []
    else Flatten(batches[..|batches| - 1]) + batches[|batches| - 1]
  }

  /** The batching loop: `batches.push(jsonData.slice(i, i + BATCH_SIZE))` for
      i = 0, 50, 100, ... Laid end to end the batches are the input; each is
      non-empty and at most 50 long, all but the last exactly 50, and there are
      ceil(n / 50) of them. */
  method SplitBatches<T>(data: seq<T>) returns (batches: seq<seq<T>>)
    ensures Flatten(batches) == data
    ensures forall k :: 0 <= k < |batches| ==> 0 < |batches[k]| <= BatchSize
    ensures forall k :: 0 <= k < |batches| - 1 ==> |batches[k]| == BatchSize
    ensures |batches| == (|data| + BatchSize - 1) / BatchSize
  {
    batches := [];
    var i := 0;
    while i < |data|
      invariant i == BatchSize * |batches|
      invariant i < |data| + BatchSize
      invariant Flatten(batches) == data[..Min(i, |data|)]
      invariant forall k :: 0 <= k < |batches| ==> 0 < |batches[k]| <= BatchSize
      invariant forall k :: 0 <= k < |batches| && BatchSize * (k + 1) <= |data| ==>
        |batches[k]| == BatchSize
      decreases |data| - i
    {
      var end := Min(i + BatchSize, |data|);
      var batch := data[i..end];
      ghost var before := batches;
      batches := batches + [batch];
      assert batches[..|batches| - 1] == before;
      assert data[..i] + data[i..end] == data[..end];
      i := i + BatchSize;
    }
    assert Min(i, |data|) == |data|;
    assert data[..|data|] == data;
  }

  /** The counts the endpoint reports for one batch; a missing count is None. */
  datatype BatchResult = BatchResult(imported: Option<nat>, duplicates: Option<nat>, errors: Option<nat>)

  /** What a request comes back with: an ok response with its parsed body, a
      response that is not ok, or an exception (network error, unparsable body). */
  datatype Response = Ok(result: BatchResult) | NotOk | Threw

  /** The body of one POST: `{ data: batch, skipDuplicates: true }`. */
  datatype Request<T> = Request(data: seq<T>, skipDuplicates: bool)

  /** `importBatch`: the server's counts on success; otherwise the whole batch
      counts as errors. */
  function ImportBatch<T>(batch: seq<T>, response: Response): (r: BatchResult)
    ensures response.Ok? ==> r == response.result
    ensures !response.Ok? ==> r.imported == Some(0) && r.duplicates == Some(0)
    ensures !response.Ok? ==> r.errors == Some(|batch|)
  {
    match response {
      case Ok(result) => result
      case NotOk => BatchResult(Some(0), Some(0), Some(|batch|))
      case Threw => BatchResult(Some(0), Some(0), Some(|batch|))
    }
  }

  /** `x || 0`. */
  function OrZero(x: Option<nat>): (r: nat)
    ensures x.Some? ==> r == x.value
    ensures x.None? ==> r == 0
  {
    if x.Some? then x.value else 0
  }

  datatype Totals = Totals(imported: nat, duplicates: nat, errors: nat)

  /** The "processed" figure of the summary: every item is imported, a duplicate or an error. */
  function Processed(t: Totals): (r: nat)
    ensures r >= t.imported && r >= t.duplicates && r >= t.errors
    ensures r == 0 <==> t == Totals(0, 0, 0)
  {
    t.imported + t.duplicates + t.errors
  }

  /** The request sent for each batch, in order. */
  function Requests<T>(batches: seq<seq<T>>): (r: seq<Request<T>>)
    ensures |r| == |batches|
    ensures forall k :: 0 <= k < |r| ==> r[k].data == batches[k] && r[k].skipDuplicates
  {
    if batches == [] then []
    else Requests(batches[..|batches| - 1]) + [Request(batches[|batches| - 1], true)]
  }

  /** The per-batch results of the first batches, the k-th request answered by
      `respond(k, ...)`. */
  function Results<T>(batches: seq<seq<T>>, respond: (nat, Request<T>) -> Response): (r: seq<BatchResult>)
    ensures |r| == |batches|
  {
    if batches == [] then []
    else
      var k := |batches| - 1;
      Results(batches[..k], respond) + [ImportBatch(batches[k], respond(k, Request(batches[k], true)))]
  }

  /** The running totals over a sequence of results, missing counts as 0. */
  function Sum(results: seq<BatchResult>): Totals {
    if results == [] then Totals(0, 0, 0)
    else
      var t := Sum(results[..|results| - 1]);
      var r := results[|results| - 1];
      Totals(t.imported + OrZero(r.imported), t.duplicates + OrZero(r.duplicates),
        t.errors + OrZero(r.errors))
  }

  /** The first i + 1 batches: one more request and one more result. */
  lemma ImportStep<T>(batches: seq<seq<T>>, respond: (nat, Request<T>) -> Response, i: nat)
    requires i < |batches|
    ensures Requests(batches[..i + 1]) == Requests(batches[..i]) + [Request(batches[i], true)]
    ensures Results(batches[..i + 1], respond)
      == Results(batches[..i], respond) + [ImportBatch(batches[i], respond(i, Request(batches[i], true)))]
  {
    assert batches[..i + 1][..i] == batches[..i];
    assert batches[..i + 1][i] == batches[i];
  }

  /** One more result adds its counts, missing ones as 0. */
  lemma SumAppend(results: seq<BatchResult>, r: BatchResult)
    ensures Sum(results + [r]) == Totals(Sum(results).imported + OrZero(r.imported),
      Sum(results).duplicates + OrZero(r.duplicates), Sum(results).errors + OrZero(r.errors))
  {
    assert (results + [r])[..|results|] == results;
  }

  /** The import loop: one request per batch, in batch order, each sent only after
      the previous one has been answered; the totals are the sums of the
      per-batch counts. */
  method ImportAll<T>(batches: seq<seq<T>>, respond: (nat, Request<T>) -> Response)
    returns (sent: seq<Request<T>>, totals: Totals)
    ensures sent == Requests(batches)
    ensures totals == Sum(Results(batches, respond))
  {
    sent := [];
    var totalImported: nat, totalDuplicates: nat, totalErrors: nat := 0, 0, 0;
    for i := 0 to |batches|
      invariant sent == Requests(batches[..i])
      invariant Totals(totalImported, totalDuplicates, totalErrors) == Sum(Results(batches[..i], respond))
    {
      var request := Request(batches[i], true);
      sent := sent + [request];
      var result := ImportBatch(batches[i], respond(i, request));
      totalImported := totalImported + OrZero(result.imported);
      totalDuplicates := totalDuplicates + OrZero(result.duplicates);
      totalErrors := totalErrors + OrZero(result.errors);
      ImportStep(batches, respond, i);
      SumAppend(Results(batches[..i], respond), result);
    }
    assert batches[..|batches|] == batches;
    totals := Totals(totalImported, totalDuplicates, totalErrors);
  }

  /** When no request succeeds, every item is reported as an error and nothing as
      imported or duplicated. */
  lemma {:induction false} AllFailedAreErrors<T>(batches: seq<seq<T>>, respond: (nat, Request<T>) -> Response)
    requires forall k: nat, q :: !respond(k, q).Ok?
    ensures Sum(Results(batches, respond)) == Totals(0, 0, |Flatten(batches)|)
  {
    if batches != [] {
      AllFailedAreErrors(batches[..|batches| - 1], respond);
    }
  }

  /** A successful report that accounts for each item of the batch exactly once. */
  predicate Accounts(r: BatchResult, size: nat) {
    OrZero(r.imported) + OrZero(r.duplicates) + OrZero(r.errors) == size
  }

  /** When the server's reports account for every item of their batch, the
      processed total (imported + duplicates + errors) is the number of items,
      whichever batches fail. */
  lemma {:induction false} ProcessedCountsEveryItem<T>(batches: seq<seq<T>>, respond: (nat, Request<T>) -> Response)
    requires forall k: nat, q: Request<T> :: respond(k, q).Ok? ==> Accounts(respond(k, q).result, |q.data|)
    ensures Processed(Sum(Results(batches, respond))) == |Flatten(batches)|
  {
    if batches != [] {
      var k := |batches| - 1;
      ProcessedCountsEveryItem(batches[..k], respond);
      var q := Request(batches[k], true);
      assert Accounts(ImportBatch(batches[k], respond(k, q)), |batches[k]|);
    }
  }

  /** The script: batch the items, import the batches. When every request fails,
      the processed total is the number of items. */
  method Import<T>(data: seq<T>, respond: (nat, Request<T>) -> Response)
    returns (batches: seq<seq<T>>, sent: seq<Request<T>>, totals: Totals)
    ensures Flatten(batches) == data
    ensures sent == Requests(batches)
    ensures totals == Sum(Results(batches, respond))
    ensures (forall k: nat, q :: !respond(k, q).Ok?) ==> totals == Totals(0, 0, |data|)
  {
    batches := SplitBatches(data);
    sent, totals := ImportAll(batches, respond);
    if forall k: nat, q :: !respond(k, q).Ok? {
      AllFailedAreErrors(batches, respond);
    }
  }
}
