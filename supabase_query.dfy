/**
 * The envelopes the court-document search service returns. The remote call
 * (embedding the query and running the stored search procedure) is an input:
 * the rows it produced, or the message of the exception raised on the way.
 */
module SupabaseQuery {
  import opened Common
  import opened Text
  import opened SearchResults

  datatype Status = Success | Error

  /** What a remote call produced: its rows, or the message of the exception it raised. */
  datatype RpcOutcome<T> = Data(rows: seq<T>) | Failure(message: string)

  /** Number of documents in the index, reported by every search envelope. */
  const IndexSize: int := 288

  const NoMatchMessage := "No matching documents found. Try broadening your search terms or lowering the similarity threshold."

  const NoStatistics := "No statistics available"

  /** The dictionary a search returns; a key the dictionary lacks is None. */
  datatype SearchEnvelope = SearchEnvelope(
    status: Status,
    results: Option<string>,
    error: Option<string>,
    documentsSearched: int,
    totalInIndex: int,
    chunksFound: int,
    rawResults: Option<seq<Hit>>)

  /**
   * The shape of every search envelope: a success carries a text and no
   * error, and counts exactly the rows it hands back (none when it hands back
   * no rows); an error carries a message, no text and no rows, and counts
   * nothing.
   */
  predicate WellFormedSearch(e: SearchEnvelope) {
    e.totalInIndex == IndexSize &&
    match e.status
    case Success =>
      e.results.Some? && e.error.None? && e.documentsSearched == IndexSize &&
      (match e.rawResults
       case None => e.chunksFound == 0
       case Some(rows) => |rows| > 0 && e.chunksFound == |rows|)
    case Error =>
      e.error.Some? && e.results.None? && e.rawResults.None? &&
      e.documentsSearched == 0 && e.chunksFound == 0
  }

  /** The envelope for the outcome of one search. */
  function QuerySupabaseRag(query: string, outcome: RpcOutcome<Hit>): (e: SearchEnvelope)
    ensures WellFormedSearch(e)
    ensures e.status == Success <==> outcome.Data?
  {
    match outcome
    case Failure(msg) =>
      SearchEnvelope(Error, None, Some(msg), 0, IndexSize, 0, None)
    case Data(rows) =>
      if rows == [] then
        SearchEnvelope(Success, Some(NoMatchMessage), None, IndexSize, IndexSize, 0, None)
      else
        SearchEnvelope(Success, Some(FormatSpec(rows, query)), None, IndexSize, IndexSize, |rows|, Some(rows))
  }

  /** No rows: a success that found nothing and says so. */
  lemma NoRowsEnvelope(query: string)
    ensures QuerySupabaseRag(query, Data([])) ==
      SearchEnvelope(Success, Some(NoMatchMessage), None, IndexSize, IndexSize, 0, None)
  {
  }

  /**
   * Some rows: a success that hands the rows back unchanged, counts them, and
   * carries the report on them, whose header states the same count.
   */
  lemma RowsEnvelope(query: string, rows: seq<Hit>)
    requires |rows| > 0
    ensures var e := QuerySupabaseRag(query, Data(rows));
      e.status == Success && e.rawResults == Some(rows) && e.chunksFound == |rows| &&
      e.results == Some(Join(ReportLines(rows, query), "\n")) &&
      ReportLines(rows, query)[..3] == HeaderLines(query, e.chunksFound, |Filenames(rows)|)
  {
    var ss := Sections(rows);
    var header := HeaderLines(query, |rows|, |GroupsOf(rows)|);
    GroupCount(rows);
    assert ReportLines(rows, query) == header + FlatMap(ss, SectionLines);
    assert (header + FlatMap(ss, SectionLines))[..3] == header;
  }

  /** A failure: an error carrying the exception's message that searched and found nothing. */
  lemma FailureEnvelope(query: string, message: string)
    ensures var e := QuerySupabaseRag(query, Failure(message));
      e.status == Error && e.error == Some(message) &&
      e.documentsSearched == 0 && e.chunksFound == 0 && e.totalInIndex == IndexSize
  {
  }

  /** The dictionary the statistics lookup returns. */
  datatype StatsEnvelope<S> = StatsEnvelope(status: Status, stats: Option<S>, error: Option<string>)

  /** A success carries statistics and no error; an error carries a message and no statistics. */
  predicate WellFormedStats<S>(e: StatsEnvelope<S>) {
    (e.status == Success <==> e.stats.Some?) && (e.status == Error <==> e.error.Some?)
  }

  /** The statistics envelope: the first row when there is one. */
  function DatabaseStats<S>(outcome: RpcOutcome<S>): (e: StatsEnvelope<S>)
    ensures WellFormedStats(e)
    ensures e.status == Success <==> outcome.Data? && |outcome.rows| > 0
  {
    match outcome
    case Failure(msg) => StatsEnvelope(Error, None, Some(msg))
    case Data(rows) =>
      if |rows| > 0 then StatsEnvelope(Success, Some(rows[0]), None)
      else StatsEnvelope(Error, None, Some(NoStatistics))
  }

  /** Which row the statistics are, and which message each error carries. */
  lemma StatsCases<S>(outcome: RpcOutcome<S>)
    ensures outcome.Data? && |outcome.rows| > 0 ==> DatabaseStats(outcome).stats == Some(outcome.rows[0])
    ensures outcome == Data([]) ==> DatabaseStats(outcome).error == Some(NoStatistics)
    ensures outcome.Failure? ==> DatabaseStats(outcome).error == Some(outcome.message)
  {
  }
}
