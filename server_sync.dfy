/** What `fetchQuotesFromServer` makes of the remote endpoint's answer. */
module ServerSync {
  import opened QuoteData

  /** A record of the remote list; only its `title` is read. */
  datatype ServerRecord = ServerRecord(title: string)

  /** How the request ended: a failure anywhere in `fetch`, `res.json()` or
      `slice` (the answer not being a list), or the decoded list. */
  datatype FetchResult = FetchFailed | Fetched(records: seq<ServerRecord>)

  /** Every quote taken from the server gets this category. */
  const SyncedCategory: string := "Synced"

  /** Only the first records of the answer are kept. */
  const FetchLimit: nat := 5

  /** `records.map(item => ({ text: item.title, category: "Synced" }))`. */
  function ToSyncedQuotes(records: seq<ServerRecord>): (r: seq<Quote>)
    ensures |r| == |records|
    ensures forall i :: 0 <= i < |r| ==> r[i] == Quote(records[i].title, SyncedCategory)
  {
    if records == [] then []
    else [Quote(records[0].title, SyncedCategory)] + ToSyncedQuotes(records[1..])
  }

  /** `data.slice(0, 5).map(...)`: at most five quotes, the i-th made from the
      i-th record's title, all in the "Synced" category. */
  function MapServerRecords(records: seq<ServerRecord>): (r: seq<Quote>)
    ensures |r| == if |records| < FetchLimit then |records| else FetchLimit
    ensures forall i :: 0 <= i < |r| ==> r[i].text == records[i].title && r[i].category == SyncedCategory
  {
    var n := if |records| < FetchLimit then |records| else FetchLimit;
    ToSyncedQuotes(records[..n])
  }

  /** The value `fetchQuotesFromServer` resolves to: the mapped records, or the
      empty list when the request failed. */
  function FetchQuotes(result: FetchResult): (r: seq<Quote>)
    ensures result.FetchFailed? ==> r == []
    ensures result.Fetched? ==> |r| <= FetchLimit && (r == [] <==> result.records == [])
    ensures result.Fetched? ==>
      && |r| == (if |result.records| < FetchLimit then |result.records| else FetchLimit)
      && forall i :: 0 <= i < |r| ==> r[i].text == result.records[i].title
    ensures forall q :: q in r ==> q.category == SyncedCategory
  {
    match result
    case FetchFailed => []
    case Fetched(records) => MapServerRecords(records)
  }
}
