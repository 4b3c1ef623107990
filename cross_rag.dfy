/**
 * The query page: one question goes to the court-document search and to the
 * communications graph, a short history of questions is kept, a
 * contradiction analysis of the two answers may be asked for, and the
 * answers can be exported as Markdown.
 *
 * The services behind the page (the search's remote call, the graph query
 * and the synthesis) are inputs: functions from their arguments to what the
 * call returned or the exception it raised.
 */
module CrossRag {
  import opened Common
  import opened SearchResults
  import opened SupabaseQuery

  datatype Mode = DualQuery | CourtDocumentsOnly | CommunicationsOnly | ContradictionAnalysis

  /** Whether the court documents are searched in this mode. */
  predicate SupabaseEnabled(mode: Mode) {
    mode in {DualQuery, CourtDocumentsOnly, ContradictionAnalysis}
  }

  /** Whether the communications graph is queried in this mode. */
  predicate GraphragEnabled(mode: Mode) {
    mode in {DualQuery, CommunicationsOnly, ContradictionAnalysis}
  }

  /** The two sources are queried side by side when both are enabled and the mode names both. */
  predicate RunParallel(mode: Mode) {
    SupabaseEnabled(mode) && GraphragEnabled(mode) && mode in {DualQuery, ContradictionAnalysis}
  }

  /** Every mode queries something; the modes that do not run in parallel query exactly one source. */
  lemma ModeSources(mode: Mode)
    ensures SupabaseEnabled(mode) <==> mode != CommunicationsOnly
    ensures GraphragEnabled(mode) <==> mode != CourtDocumentsOnly
    ensures !RunParallel(mode) ==> (SupabaseEnabled(mode) != GraphragEnabled(mode))
  {
  }

  /** The third conjunct of the parallel rule adds nothing: parallel exactly when both sources are enabled. */
  lemma ParallelExactlyBothEnabled(mode: Mode)
    ensures RunParallel(mode) <==> SupabaseEnabled(mode) && GraphragEnabled(mode)
    ensures RunParallel(mode) <==> mode == DualQuery || mode == ContradictionAnalysis
  {
  }

  /**
   * The synthesis checkbox: ticked by default only in contradiction mode, and
   * changeable only there (elsewhere it is disabled and keeps its default).
   */
  function SynthesisDefault(mode: Mode): bool {
    mode == ContradictionAnalysis
  }

  function SynthesisEnabled(mode: Mode, ticked: bool): (enable: bool)
    ensures enable ==> mode == ContradictionAnalysis
    ensures mode == ContradictionAnalysis ==> enable == ticked
  {
    if mode == ContradictionAnalysis then ticked else SynthesisDefault(mode)
  }

  /** What a call made inside `try` produced: its return value, or the message of the exception. */
  datatype Outcome<T> = Returned(value: T) | Raised(message: string)

  /**
   * A stored result. The search's envelope is kept whole; the graph query
   * and the synthesis return dictionaries of which the page reads the
   * status, the `results` or `report` text and the error message.
   */
  datatype Record =
    | CourtRecord(envelope: SearchEnvelope)
    | Reply(status: Status, results: Option<string>, report: Option<string>, error: Option<string>)

  /** The record a wrapper stores for an exception: an error with its message and nothing else. */
  function ErrorRecord(message: string): Record {
    Reply(Error, None, None, Some(message))
  }

  function StatusOf(r: Record): Status {
    match r
    case CourtRecord(e) => e.status
    case Reply(s, _, _, _) => s
  }

  /** The record's `results` text, if it has one. */
  function ResultsOf(r: Record): Option<string> {
    match r
    case CourtRecord(e) => e.results
    case Reply(_, text, _, _) => text
  }

  /** The record's `report` text, if it has one (a search envelope has none). */
  function ReportOf(r: Record): Option<string> {
    match r
    case CourtRecord(_) => None
    case Reply(_, _, text, _) => text
  }

  /** A wrapped call: what the call returned, or the error record for its exception. */
  function WrapCall(o: Outcome<Record>): (r: Record)
    ensures o.Returned? ==> r == o.value
    ensures o.Raised? ==> StatusOf(r) == Error && ResultsOf(r) == None && ReportOf(r) == None
  {
    match o
    case Returned(r) => r
    case Raised(msg) => ErrorRecord(msg)
  }

  /** An exception becomes an error record that carries its message. */
  lemma WrapCallKeepsMessage(message: string)
    ensures WrapCall(Raised(message)).error == Some(message)
  {
  }

  datatype GraphMethod = Global | Local

  /**
   * The services behind the page: the search's remote call for a question
   * and a match count, the graph query for a topic and a question, and the
   * synthesis of a question and the two stored records.
   */
  datatype Services = Services(
    search: (string, int) -> Outcome<RpcOutcome<Hit>>,
    pass2: (string, string) -> Outcome<Record>,
    synthesize: (string, Record, Record) -> Outcome<Record>)

  /** The topic every graph query of the page is sent under. */
  const Topic := "custom_query"

  /**
   * The court search: the envelope built from the remote call's outcome. An
   * exception that escapes the envelope builder is passed on.
   */
  function CachedSupabaseQuery(sv: Services, query: string, matchCount: int): Outcome<Record> {
    match sv.search(query, matchCount)
    case Returned(rpc) => Returned(CourtRecord(QuerySupabaseRag(query, rpc)))
    case Raised(msg) => Raised(msg)
  }

  /** The graph query; the method is only part of the cache key and never reaches the query. */
  function CachedGraphragQuery(sv: Services, topic: string, query: string, graphMethod: GraphMethod): Outcome<Record> {
    sv.pass2(topic, query)
  }

  /** Changing the graph method changes nothing the query returns. */
  lemma GraphMethodIgnored(sv: Services, topic: string, query: string)
    ensures CachedGraphragQuery(sv, topic, query, Global) == CachedGraphragQuery(sv, topic, query, Local)
  {
  }

  /** One press of the execute button: the question, the page's settings and the time. */
  datatype Request = Request(
    query: string,
    timestamp: string,
    mode: Mode,
    enable: bool,
    matchCount: int,
    graphMethod: GraphMethod)

  /** The keys of the stored results. */
  datatype Source = Supabase | Graphrag | Synthesis

  type Results = map<Source, Record>

  function CourtRecordFor(req: Request, sv: Services): Record {
    WrapCall(CachedSupabaseQuery(sv, req.query, req.matchCount))
  }

  function CommsRecordFor(req: Request, sv: Services): Record {
    WrapCall(CachedGraphragQuery(sv, Topic, req.query, req.graphMethod))
  }

  /** The sequential path's searches: court documents first, then communications, each if enabled. */
  function SequentialSearches(results: Results, req: Request, sv: Services): Results {
    var r := if SupabaseEnabled(req.mode) then results[Supabase := CourtRecordFor(req, sv)] else results;
    if GraphragEnabled(req.mode) then r[Graphrag := CommsRecordFor(req, sv)] else r
  }

  /** Synthesis is asked for when it is enabled and both sources have a stored record. */
  predicate SynthesisGuard(enable: bool, results: Results) {
    enable && Supabase in results && Graphrag in results
  }

  /** The stored results after one query: the parallel path, or the sequential path and its synthesis. */
  function NextResults(results: Results, req: Request, sv: Services): Results {
    if RunParallel(req.mode) then
      results[Supabase := CourtRecordFor(req, sv)][Graphrag := CommsRecordFor(req, sv)]
    else
      var r := SequentialSearches(results, req, sv);
      if SynthesisGuard(req.enable, r) then
        r[Synthesis := WrapCall(sv.synthesize(req.query, r[Supabase], r[Graphrag]))]
      else r
  }

  /** Results are never dropped: every key stored before a query is still stored after it. */
  lemma ResultsOnlyGrow(results: Results, req: Request, sv: Services)
    ensures results.Keys <= NextResults(results, req, sv).Keys
  {
  }

  /**
   * In parallel both records are stored, each the wrapped outcome of its own
   * call: an exception in one call becomes that record's error and leaves
   * the other record as its call made it.
   */
  lemma ParallelStoresBoth(results: Results, req: Request, sv: Services)
    requires RunParallel(req.mode)
    ensures var r := NextResults(results, req, sv);
      Supabase in r && r[Supabase] == WrapCall(CachedSupabaseQuery(sv, req.query, req.matchCount)) &&
      Graphrag in r && r[Graphrag] == WrapCall(sv.pass2(Topic, req.query))
  {
  }

  /** Each path stores the same court record for the same call. */
  lemma SameCourtRecordOnEitherPath(results: Results, req: Request, sv: Services)
    requires SupabaseEnabled(req.mode)
    ensures Supabase in NextResults(results, req, sv)
    ensures NextResults(results, req, sv)[Supabase] == CourtRecordFor(req, sv)
  {
  }

  /** A source this mode does not query keeps whatever an earlier query stored for it. */
  lemma DisabledSourceKept(results: Results, req: Request, sv: Services)
    ensures !SupabaseEnabled(req.mode) && Supabase in results ==>
      Supabase in NextResults(results, req, sv) && NextResults(results, req, sv)[Supabase] == results[Supabase]
    ensures !GraphragEnabled(req.mode) && Graphrag in results ==>
      Graphrag in NextResults(results, req, sv) && NextResults(results, req, sv)[Graphrag] == results[Graphrag]
  {
  }

  /** The synthesis entry changes only on the sequential path with synthesis enabled. */
  lemma SynthesisOnlySequential(results: Results, req: Request, sv: Services)
    requires RunParallel(req.mode) || !req.enable
    ensures var r := NextResults(results, req, sv);
      (Synthesis in r <==> Synthesis in results) &&
      (Synthesis in results ==> r[Synthesis] == results[Synthesis])
  {
  }

  /** On the sequential path with synthesis enabled and both records stored, the synthesis of those records is stored. */
  lemma SynthesisRuns(results: Results, req: Request, sv: Services)
    requires !RunParallel(req.mode) && req.enable
    requires Supabase in SequentialSearches(results, req, sv) && Graphrag in SequentialSearches(results, req, sv)
    ensures var s := SequentialSearches(results, req, sv);
      Synthesis in NextResults(results, req, sv) &&
      NextResults(results, req, sv)[Synthesis] == WrapCall(sv.synthesize(req.query, s[Supabase], s[Graphrag]))
  {
  }

  /**
   * On the sequential path the synthesis needs both records: when one of
   * them is still missing after the searches, the synthesis entry is as it was.
   */
  lemma SynthesisNeedsBothRecords(results: Results, req: Request, sv: Services)
    requires !RunParallel(req.mode)
    requires Supabase !in SequentialSearches(results, req, sv) || Graphrag !in SequentialSearches(results, req, sv)
    ensures var r := NextResults(results, req, sv);
      (Synthesis in r <==> Synthesis in results) &&
      (Synthesis in results ==> r[Synthesis] == results[Synthesis])
  {
  }

  /** Contradiction mode always runs in parallel, so it never runs the synthesis. */
  lemma ContradictionNeverSynthesizes(results: Results, req: Request, sv: Services)
    requires req.mode == ContradictionAnalysis
    ensures var r := NextResults(results, req, sv);
      (Synthesis in r <==> Synthesis in results) &&
      (Synthesis in results ==> r[Synthesis] == results[Synthesis])
  {
    SynthesisOnlySequential(results, req, sv);
  }

  /**
   * With the checkbox as the page offers it (changeable only in
   * contradiction mode), no query ever runs the synthesis.
   */
  lemma CheckboxNeverSynthesizes(results: Results, req: Request, sv: Services, ticked: bool)
    requires req.enable == SynthesisEnabled(req.mode, ticked)
    ensures var r := NextResults(results, req, sv);
      (Synthesis in r <==> Synthesis in results) &&
      (Synthesis in results ==> r[Synthesis] == results[Synthesis])
  {
    if req.mode == ContradictionAnalysis {
      ContradictionNeverSynthesizes(results, req, sv);
    } else {
      SynthesisOnlySequential(results, req, sv);
    }
  }

  /** History holds at most this many queries. */
  const MaxHistory: nat := 10

  /** The sidebar shows this many queries ... */
  const PreviewCount: nat := 5

  /** ... each cut to this many characters. */
  const PreviewWidth: nat := 50

  datatype Entry = Entry(query: string, timestamp: string, mode: Mode)

  /** The history after a query: the new entry at the front, then the older ones, at most ten in all. */
  function PushHistory(history: seq<Entry>, e: Entry): (r: seq<Entry>)
    ensures |r| == Min(MaxHistory, |history| + 1)
    ensures r[0] == e
    ensures r[1..] == history[..|r| - 1]
  {
    ([e] + history)[..Min(MaxHistory, |history| + 1)]
  }

  /** The history after the queries `es`, run oldest first. */
  function Replay(history: seq<Entry>, es: seq<Entry>): seq<Entry>
    decreases |es|
  {
    if es == [] then history else PushHistory(Replay(history, es[..|es| - 1]), es[|es| - 1])
  }

  function Reversed<T>(s: seq<T>): (r: seq<T>)
    ensures |r| == |s|
    decreases |s|
  {
    if s == [] then [] else [s[|s| - 1]] + Reversed(s[..|s| - 1])
  }

  /** After any run of queries the history is the ten most recent entries, newest first. */
  lemma {:induction false} ReplayMostRecentFirst(history: seq<Entry>, es: seq<Entry>)
    requires |history| <= MaxHistory
    ensures Replay(history, es) == (Reversed(es) + history)[..Min(MaxHistory, |es| + |history|)]
    decreases |es|
  {
    if es == [] {
      assert Reversed(es) + history == history;
    } else {
      var es', x := es[..|es| - 1], es[|es| - 1];
      var l := Reversed(es') + history;
      ReplayMostRecentFirst(history, es');
      var m := Min(MaxHistory, |l|);
      var prev := Replay(history, es');
      assert prev == l[..m];
      assert Replay(history, es) == PushHistory(prev, x);
      assert PushHistory(prev, x) == ([x] + prev)[..Min(MaxHistory, m + 1)];
      assert Reversed(es) == [x] + Reversed(es');
      AppendAssoc([x], Reversed(es'), history);
      TakeAfterCons(x, l, m, Min(MaxHistory, m + 1));
    }
  }

  lemma TakeAfterCons<T>(x: T, l: seq<T>, m: nat, k: nat)
    requires m <= |l| && k <= m + 1
    ensures ([x] + l[..m])[..k] == ([x] + l)[..k]
  {
  }

  /** How the sidebar shows a query: cut to fifty characters and marked when cut. */
  function QueryPreview(q: string): (p: string)
    ensures |q| <= PreviewWidth ==> p == q
    ensures |q| > PreviewWidth ==> |p| == PreviewWidth + 3 && p[..PreviewWidth] == q[..PreviewWidth] && p[PreviewWidth..] == "..."
  {
    if |q| > PreviewWidth then q[..PreviewWidth] + "..." else q
  }

  /** The Markdown export's sections, in the order they are written. */
  const ExportOrder: seq<Source> := [Synthesis, Supabase, Graphrag]

  /** The title block every export starts with. */
  function TitleBlock(query: string, date: string): string {
    "# Cross-RAG Query Results\n\n**Query:** " + query + "\n**Date:** " + date + "\n\n---\n\n"
  }

  /** The section written for a stored record. */
  function Block(entry: (Source, Record)): string {
    match entry.0
    case Synthesis =>
      "## Contradiction Analysis\n\n" + ReportOf(entry.1).GetOr("No report") + "\n\n---\n\n"
    case Supabase =>
      "## Court Documents Results\n\n" + ResultsOf(entry.1).GetOr("No results") + "\n\n---\n\n"
    case Graphrag =>
      "## Communications Results\n\n" + ResultsOf(entry.1).GetOr("No results") + "\n"
  }

  /** The keys of `order` that are stored, each with its record, in the order of `order`. */
  function Present(order: seq<Source>, results: Results): seq<(Source, Record)>
    decreases |order|
  {
    if order == [] then []
    else
      var s := order[|order| - 1];
      Present(order[..|order| - 1], results) + (if s in results then [(s, results[s])] else [])
  }

  /** A section is written exactly for each stored key, with that key's record. */
  lemma {:induction false} PresentMembers(order: seq<Source>, results: Results, s: Source, r: Record)
    ensures (s, r) in Present(order, results) <==> s in order && s in results && r == results[s]
    decreases |order|
  {
    if order != [] {
      var order' := order[..|order| - 1];
      PresentMembers(order', results, s, r);
      assert s in order <==> s in order' || s == order[|order| - 1];
    }
  }

  /** The position of a section in the export's fixed order. */
  function Rank(s: Source): nat {
    match s
    case Synthesis => 0
    case Supabase => 1
    case Graphrag => 2
  }

  /** Sections come in the fixed order, each at most once. */
  lemma {:induction false} PresentFollowsOrder(order: seq<Source>, results: Results, i: nat, j: nat)
    requires forall a, b :: 0 <= a < b < |order| ==> Rank(order[a]) < Rank(order[b])
    requires i < j < |Present(order, results)|
    ensures Rank(Present(order, results)[i].0) < Rank(Present(order, results)[j].0)
    decreases |order|
  {
    var order' := order[..|order| - 1];
    var p' := Present(order', results);
    if j < |p'| {
      PresentFollowsOrder(order', results, i, j);
    } else {
      var s := order[|order| - 1];
      assert Present(order, results)[j].0 == s;
      PresentMembers(order', results, p'[i].0, p'[i].1);
      assert p'[i] in p';
    }
  }

  /** The export's order is strictly increasing in rank. */
  lemma ExportOrderRanked()
    ensures forall a, b :: 0 <= a < b < |ExportOrder| ==> Rank(ExportOrder[a]) < Rank(ExportOrder[b])
  {
  }

  /**
   * The export's sections: one for each stored key, with that key's record,
   * and none other, in the order synthesis, court documents, communications.
   */
  lemma ExportSections(results: Results)
    ensures forall s, r :: (s, r) in Present(ExportOrder, results) <==> s in results && r == results[s]
    ensures forall i, j :: 0 <= i < j < |Present(ExportOrder, results)| ==>
      Rank(Present(ExportOrder, results)[i].0) < Rank(Present(ExportOrder, results)[j].0)
  {
    forall s: Source, r: Record
      ensures (s, r) in Present(ExportOrder, results) <==> s in results && r == results[s]
    {
      PresentMembers(ExportOrder, results, s, r);
      assert s == ExportOrder[Rank(s)];
    }
    ExportOrderRanked();
    forall i, j | 0 <= i < j < |Present(ExportOrder, results)|
      ensures Rank(Present(ExportOrder, results)[i].0) < Rank(Present(ExportOrder, results)[j].0)
    {
      PresentFollowsOrder(ExportOrder, results, i, j);
    }
  }

  /** Taking one more key of the order adds its entry when it is stored. */
  lemma PresentSnoc(order: seq<Source>, results: Results, k: nat)
    requires k < |order|
    ensures Present(order[..k + 1], results) ==
      Present(order[..k], results) + (if order[k] in results then [(order[k], results[order[k]])] else [])
  {
    assert order[..k + 1][..k] == order[..k];
  }

  /** Writing the section of the next key in the order, if it is stored, extends the export by one section. */
  lemma ExportStep<U>(order: seq<Source>, results: Results, k: nat, f: ((Source, Record)) -> seq<U>,
                      title: seq<U>, before: seq<U>, after: seq<U>)
    requires k < |order|
    requires before == title + FlatMap(Present(order[..k], results), f)
    requires after == if order[k] in results then before + f((order[k], results[order[k]])) else before
    ensures after == title + FlatMap(Present(order[..k + 1], results), f)
  {
    var s := order[k];
    var p := Present(order[..k], results);
    PresentSnoc(order, results, k);
    if s in results {
      var e := (s, results[s]);
      assert Present(order[..k + 1], results) == p + [e];
      FlatMapAppend(p, [e], f);
      FlatMapSingle(e, f);
      AppendAssoc(title, FlatMap(p, f), f(e));
    } else {
      assert Present(order[..k + 1], results) == p;
    }
  }

  /**
   * The export tab exists when some result is stored and, with synthesis
   * enabled, when the synthesis result is stored too (otherwise the page has
   * only three tabs and the export's slot is empty).
   */
  predicate ExportOffered(enable: bool, results: Results) {
    |results| > 0 && (!enable || Synthesis in results)
  }

  /**
   * In contradiction mode with the checkbox ticked, a query never brings up
   * the export: the query stores no synthesis, and with synthesis enabled and
   * none stored the export's slot is empty.
   */
  lemma TickedCheckboxHidesExport(results: Results, req: Request, sv: Services)
    requires req.mode == ContradictionAnalysis && req.enable
    requires Synthesis !in results
    ensures !ExportOffered(req.enable, NextResults(results, req, sv))
  {
    ContradictionNeverSynthesizes(results, req, sv);
  }

  /** The browser session: the query history and the stored results, which persist between queries. */
  class Session {
    var history: seq<Entry>
    var results: Results
    /** Every query of the session, oldest first. */
    ghost var queries: seq<Entry>

    /** The history is what the session's queries made of the empty history. */
    ghost predicate Valid()
      reads this
    {
      history == Replay([], queries)
    }

    constructor ()
      ensures Valid() && history == [] && results == map[] && queries == []
    {
      history := [];
      results := map[];
      queries := [];
    }

    /** The execute button: record the query in the history, then query the sources. */
    method ExecuteQuery(req: Request, sv: Services)
      requires req.query != ""
      requires Valid()
      modifies this
      ensures Valid() && queries == old(queries) + [Entry(req.query, req.timestamp, req.mode)]
      ensures history == PushHistory(old(history), Entry(req.query, req.timestamp, req.mode))
      ensures history == Reversed(queries)[..Min(MaxHistory, |queries|)]
      ensures results == NextResults(old(results), req, sv)
    {
      ghost var e := Entry(req.query, req.timestamp, req.mode);
      queries := queries + [e];
      assert queries[..|queries| - 1] == old(queries);
      ReplayMostRecentFirst([], queries);
      assert Reversed(queries) + [] == Reversed(queries);
      history := [Entry(req.query, req.timestamp, req.mode)] + history;
      history := history[..Min(MaxHistory, |history|)];

      if RunParallel(req.mode) {
        var courtResult := WrapCall(CachedSupabaseQuery(sv, req.query, req.matchCount));
        var commsResult := WrapCall(CachedGraphragQuery(sv, Topic, req.query, req.graphMethod));
        results := results[Supabase := courtResult];
        results := results[Graphrag := commsResult];
      } else {
        if SupabaseEnabled(req.mode) {
          results := results[Supabase := WrapCall(CachedSupabaseQuery(sv, req.query, req.matchCount))];
        }
        if GraphragEnabled(req.mode) {
          results := results[Graphrag := WrapCall(CachedGraphragQuery(sv, Topic, req.query, req.graphMethod))];
        }
        if req.enable && Supabase in results && Graphrag in results {
          var synthesis := WrapCall(sv.synthesize(req.query, results[Supabase], results[Graphrag]));
          results := results[Synthesis := synthesis];
        }
      }
    }

    /** The sidebar's history buttons: the first five entries, each query cut for display. */
    method PreviewLabels() returns (labels: seq<string>)
      ensures |labels| == Min(PreviewCount, |history|)
      ensures forall i :: 0 <= i < |labels| ==> labels[i] == QueryPreview(history[i].query)
    {
      var shown := history[..Min(PreviewCount, |history|)];
      labels := [];
      for i := 0 to |shown|
        invariant |labels| == i
        invariant forall k :: 0 <= k < i ==> labels[k] == QueryPreview(shown[k].query)
      {
        labels := labels + [QueryPreview(shown[i].query)];
      }
    }

    /** The Markdown export: the title block, then a section for each stored key in the fixed order. */
    method BuildExport(query: string, date: string) returns (md: string)
      ensures md == TitleBlock(query, date) + FlatMap(Present(ExportOrder, results), Block)
    {
      var title := TitleBlock(query, date);
      md := title;
      assert ExportOrder[..0] == [];
      ghost var before := md;
      md := AppendExportSection(md, Synthesis);
      ExportStep(ExportOrder, results, 0, Block, title, before, md);
      before := md;
      md := AppendExportSection(md, Supabase);
      ExportStep(ExportOrder, results, 1, Block, title, before, md);
      before := md;
      md := AppendExportSection(md, Graphrag);
      ExportStep(ExportOrder, results, 2, Block, title, before, md);
      assert ExportOrder[..3] == ExportOrder;
    }

    /** One `+=` of the export: the section of `key` when a result is stored under it. */
    method AppendExportSection(md: string, key: Source) returns (out: string)
      ensures out == if key in results then md + Block((key, results[key])) else md
    {
      out := md;
      if key in results {
        out := out + Block((key, results[key]));
      }
    }
  }
}
