# Cross-RAG query page: search report, envelopes and session state

A Dafny model of two parts of a legal-case query tool.

- **`supabase_query.py`**: the court-document search.
  - `format_search_results` turns the hits of a vector search into a Markdown report. It groups the hits by file in order of first appearance. It ranks the files by their best similarity, using Python's stable `sorted` with `reverse=True`. Each file shows at most its three most similar chunks.
  - `query_supabase_rag` and `get_database_stats` wrap the outcome of a remote call in a status dictionary.
- **`cross_rag_query_app.py`**: the page that drives the search.
  - The query mode decides which sources are queried, and whether they are queried side by side or one after the other.
  - The page keeps a history of at most ten queries and shows a preview of the first five.
  - The thread wrappers turn exceptions into error records.
  - Contradiction synthesis is guarded.
  - The page builds the Markdown export.

## How the model is built

| file | module | models |
|---|---|---|
| `common.dfy` | `Common` | `Option` (a dictionary key that may be missing), `Min`, ordered concatenation `FlatMap` and its lemmas |
| `text.dfy` | `Text` | decimal rendering, the `:.1%` format, `str.replace`, `str.title`, `str.join` |
| `stable_sort.dfy` | `StableSort` | `sorted(..., reverse=True)` as a stable insertion sort, with sortedness, permutation, stability and best-prefix lemmas |
| `search_results.dfy` | `SearchResults` | the formatter: the grouping loop, the ranking, the top-three cap, the line-by-line rendering |
| `supabase_query.dfy` | `SupabaseQuery` | the search and statistics envelopes |
| `cross_rag.dfy` | `CrossRag` | mode rules, the wrapped calls, the session (history, stored results), the sidebar preview, the export |

**The formatter** (`SearchResults.FormatSearchResults`) is imperative, as in the source. One loop builds the list of groups, which stands in for Python's insertion-ordered `docs` dictionary. Further loops append the report's lines. The method is proved equal to `FormatSpec`, which is the same computation written as functions: `GroupsOf` folds the loop body `AddHit` over the hits, and `SortDesc`, `Numbered` and `SectionLines` rank and render the groups. The lemmas then relate the groups and the sections to independent reference definitions:
- `FirstIndex`: where a file first appears among the hits;
- `ChunksNamed`: a file's chunks, in hit order;
- `Filenames`: the set of distinct file names.

Those lemmas carry the properties the source promises.

Similarities are integers in thousandths (0.853 is 853), so `:.1%` becomes exact decimal arithmetic.

**The page's session state** is the class `CrossRag.Session`. Its fields are the query history and the stored results map.
- `ExecuteQuery` updates them step by step, as the button handler does. It is proved equal to `PushHistory` and `NextResults`, and the lemmas about those functions carry the properties. A ghost field records every query of the session, and the invariant `Valid` ties the history to it: the history is always the ten newest queries, newest first.
- `PreviewLabels` and `BuildExport` only read the state.
- The retrieval and synthesis services are the fields of a `Services` value: functions from their arguments to what they returned or raised.

The model keeps two consequences of the source's structure:
- The synthesis block sits inside the sequential branch, and contradiction mode always takes the parallel branch, so contradiction mode never synthesises (`ContradictionNeverSynthesizes`). The synthesis checkbox can only be changed in contradiction mode, so no query from the page as offered ever synthesises (`CheckboxNeverSynthesizes`).
- With the checkbox ticked and no synthesis stored, the export tab's slot is empty (`TickedCheckboxHidesExport`). So in contradiction mode with the default ticked checkbox, no export is offered.

Stored results persist between queries, because `results` is only initialised when absent. A source the current mode does not query keeps its earlier record (`DisabledSourceKept`).

## Model

| member | source | states |
|---|---|---|
| `SearchResults.FormatSearchResults` | supabase_query.py:127-187 | The text returned is `FormatSpec`: "No results found." for no hits; otherwise the header lines, then each ranked file's section, joined with newlines. |
| `SearchResults.GroupHits` | supabase_query.py:134-148 | The grouping loop computes exactly `GroupsOf`, one `AddHit` step per hit in order. |
| `SearchResults.AppendSections` | supabase_query.py:163-169 | The file loop appends the sections of the ranked files in order, numbered from 1. |
| `SearchResults.AppendSection` | supabase_query.py:164-179 | One file's lines: the heading `## n. filename`, the type line, then the lines of its top chunks. |
| `SearchResults.AppendChunks` | supabase_query.py:179-185 | Three lines per shown chunk, in order: the label, the content, the `---` rule. |
| `SearchResults.NoResultsExactlyWhenEmpty` | supabase_query.py:130-131 | The report is exactly "No results found." if and only if there are no hits. |
| `SearchResults.GroupsOfFaithful` | supabase_query.py:134-148 | The groups satisfy all of the following: one group per file and none for a file no hit names; no file twice; each group holds exactly its file's chunks in hit order; type and metadata come from the file's first hit; groups are in order of first appearance. |
| `SearchResults.GroupOfFile` | supabase_query.py:136-148 | A group's file has a first hit; the group's type is that hit's type; its chunks are all of the file's chunks. |
| `SearchResults.HasGroupIffSeen` | supabase_query.py:137-142 | After grouping, a file has a group exactly when some hit names it. |
| `SearchResults.GroupSizesSum` | supabase_query.py:143-148 | The groups hold as many chunks as there are hits. |
| `SearchResults.GroupCount` | supabase_query.py:134-148 | There are as many groups as distinct file names. |
| `SearchResults.GroupsNonEmpty` | supabase_query.py:143-148 | Every group has a chunk, so its `max` is defined. |
| `SearchResults.HeaderCounts` | supabase_query.py:151-154 | The first three lines are the query heading, the count of hits and of distinct files, and the rule. |
| `SearchResults.MaxSimilarityIsMax` | supabase_query.py:159 | A group's key is the similarity of one of its chunks, and no chunk is above it. |
| `SearchResults.SectionsRanked` | supabase_query.py:157-161 | Sections come in non-increasing order of best similarity. |
| `SearchResults.EqualRelevanceKeepsFirstAppearance` | supabase_query.py:157-161 | Files with equal best similarity keep their order of first appearance, because the sort is stable. |
| `SearchResults.RankedGroupsArePermutation` | supabase_query.py:157-161 | The ranked groups are the groups rearranged, as a multiset and as a set. |
| `SearchResults.SectionsNumbered` | supabase_query.py:163 | Section k is numbered k + 1. |
| `SearchResults.SectionIsRanked` | supabase_query.py:163-169 | Section k presents the group ranked k-th. |
| `SearchResults.SectionsCount` | supabase_query.py:153-163 | There is one section per distinct file, the number stated in the header. |
| `SearchResults.SectionsDistinct` | supabase_query.py:157-163 | No two sections are for the same file. |
| `SearchResults.SeenFileHasSection` | supabase_query.py:134-163 | Every file a hit names has a section. |
| `SearchResults.SectionFileSeen` | supabase_query.py:134-163 | Every section is for a file some hit names. |
| `SearchResults.SectionOfFile` | supabase_query.py:163-179 | A section shows the following for its file: the first hit's type with `_` as space, title-cased; the maximum over all of the file's chunks; the top chunks among all of its chunks. |
| `SearchResults.SectionRelevance` | supabase_query.py:166 | The relevance shown is reached by one of the file's chunks and exceeded by none. |
| `SearchResults.SectionShown` | supabase_query.py:171-179 | A section shows min(3, n) of its own file's n chunks. They are in non-increasing order and no unshown chunk of the file is more similar. |
| `SearchResults.TopChunksAreBest` | supabase_query.py:172-179 | The first at most three chunks of the descending sort are the best of the file, best first. |
| `SearchResults.ChunkLinesLayout` | supabase_query.py:179-185 | Shown chunk i occupies lines 3i to 3i+2 of its file's chunk lines: label, content, rule. |
| `SearchResults.ReportLayout` | supabase_query.py:150-187 | The report lines are the header, then the sections' lines in rank order, section k between those before and after it. |
| `StableSort.SortDescSorted` | supabase_query.py:157-161 | The descending sort's output is in non-increasing key order. |
| `StableSort.SortDescPermutes` | supabase_query.py:157-161 | The descending sort's output is a permutation of its input. |
| `StableSort.SortDescStable` | supabase_query.py:172-176 | For every key value, the elements with that key keep their relative order. |
| `StableSort.SortDescTiesKeepOrder` | supabase_query.py:157-161 | Two outputs with equal keys appear in their input order. |
| `StableSort.PrefixIsBest` | supabase_query.py:178-179 | A prefix of the descending sort is sorted, is drawn from the input, and nothing left out ranks above anything kept. |
| `Text.ParseNatToString` | supabase_query.py:153 | The decimal rendering of a count reads back as that count. |
| `Text.Percent` | supabase_query.py:169 | The similarity renders as an optional minus sign (exactly for negative values), the whole percent of its magnitude, a point, the tenths digit and a `%` sign. |
| `Text.ReplaceChar` | supabase_query.py:165 | `replace('_', ' ')` keeps the length, changes exactly the underscores, and leaves none. |
| `Text.TitleCaseAt` | supabase_query.py:165 | `title()` upper-cases a letter that starts a word, lower-cases one that follows a letter, and keeps other characters. |
| `Text.JoinStartsWithFirst` | supabase_query.py:187 | The joined text begins with the first line. |
| `SupabaseQuery.QuerySupabaseRag` | supabase_query.py:60-125 | The envelope is well formed: a success carries text and no error and counts exactly the rows it hands back; an error carries a message and counts nothing. It is a success exactly when the call produced rows (possibly none). |
| `SupabaseQuery.NoRowsEnvelope` | supabase_query.py:97-104 | No rows: SUCCESS, the no-match message, 288 searched, 288 in the index, 0 chunks, no raw rows. |
| `SupabaseQuery.RowsEnvelope` | supabase_query.py:106-116 | N rows: SUCCESS, N chunks, the rows handed back unchanged, and the report of those rows, whose header states the same N. |
| `SupabaseQuery.FailureEnvelope` | supabase_query.py:118-125 | An exception: ERROR with its message, 0 searched, 0 chunks, 288 in the index. |
| `SupabaseQuery.DatabaseStats` | supabase_query.py:189-210 | The statistics envelope is a success exactly when the call returned a row; a success carries statistics, an error a message. |
| `SupabaseQuery.StatsCases` | supabase_query.py:196-210 | The statistics are the first row; an empty result gives "No statistics available"; an exception gives its message. |
| `CrossRag.ModeSources` | cross_rag_query_app.py:127-135 | Court documents are off only in Communications Only, communications only in Court Documents Only. A sequential mode queries exactly one source. |
| `CrossRag.ParallelExactlyBothEnabled` | cross_rag_query_app.py:260 | The queries run in parallel exactly when both sources are enabled, which is exactly Dual Query and Contradiction Analysis. |
| `CrossRag.SynthesisEnabled` | cross_rag_query_app.py:147-152 | Synthesis can be enabled only in contradiction mode; there it is what the checkbox shows. |
| `CrossRag.WrapCall` | cross_rag_query_app.py:267-288 | A returned value is stored as returned; an exception becomes an ERROR record with no results and no report. |
| `CrossRag.WrapCallKeepsMessage` | cross_rag_query_app.py:275-276 | The error record carries the exception's message. |
| `CrossRag.GraphMethodIgnored` | cross_rag_query_app.py:39-42 | The graph method never changes what the graph query returns. |
| `CrossRag.ResultsOnlyGrow` | cross_rag_query_app.py:246-248 | No stored key is lost by a query. |
| `CrossRag.ParallelStoresBoth` | cross_rag_query_app.py:262-310 | On the parallel path both records are stored. Each is its own call's wrapped outcome, so an exception in one leaves the other as its call made it. |
| `CrossRag.SameCourtRecordOnEitherPath` | cross_rag_query_app.py:333-361 | Whenever court documents are enabled, either path stores the wrapped outcome of the same call. |
| `CrossRag.DisabledSourceKept` | cross_rag_query_app.py:247-248 | A source the mode does not query keeps the record an earlier query stored. |
| `CrossRag.SynthesisOnlySequential` | cross_rag_query_app.py:396-427 | On the parallel path, or with synthesis disabled, the synthesis entry is unchanged. |
| `CrossRag.SynthesisRuns` | cross_rag_query_app.py:397-427 | On the sequential path, when synthesis is enabled and both records are stored, the wrapped synthesis of those two records is stored. |
| `CrossRag.SynthesisNeedsBothRecords` | cross_rag_query_app.py:397 | On the sequential path, when a record is missing after the searches, the synthesis entry is unchanged. With `SynthesisRuns` and `SynthesisOnlySequential` this is the whole guard, in both directions. |
| `CrossRag.ContradictionNeverSynthesizes` | cross_rag_query_app.py:260-262 | A contradiction-mode query never changes the synthesis entry. |
| `CrossRag.CheckboxNeverSynthesizes` | cross_rag_query_app.py:147-152 | With the checkbox as the page offers it, no query changes the synthesis entry. |
| `CrossRag.TickedCheckboxHidesExport` | cross_rag_query_app.py:430-511 | In contradiction mode with the checkbox ticked and no synthesis stored, a query leaves the export without a slot: the query stores no synthesis, and the export tab exists only when one is stored. |
| `CrossRag.PushHistory` | cross_rag_query_app.py:251-257 | The new history holds min(10, n + 1) entries: the new entry first, then the old history's first entries in order. |
| `CrossRag.ReplayMostRecentFirst` | cross_rag_query_app.py:251-257 | After any run of queries, the history is the at most ten newest entries, newest first. |
| `CrossRag.QueryPreview` | cross_rag_query_app.py:183 | A query of at most 50 characters is shown whole; a longer one as its first 50 characters and "...". |
| `CrossRag.Session.constructor` | cross_rag_query_app.py:197-199 | A new session has no history, no stored results and no queries. |
| `CrossRag.Session.Valid` | cross_rag_query_app.py:251-257 | Definition: the history is what the session's queries made of the empty history, one `PushHistory` per query. The constructor establishes it and `ExecuteQuery` keeps it. |
| `CrossRag.Session.ExecuteQuery` | cross_rag_query_app.py:243-427 | The history becomes `PushHistory` of the new entry, and it is the at most ten newest of all the session's queries, newest first. The stored results become `NextResults`: parallel stores both records; sequential stores each enabled source, then the synthesis when guarded. |
| `CrossRag.Session.PreviewLabels` | cross_rag_query_app.py:182-183 | The first min(5, n) history entries, each query shown through `QueryPreview`. |
| `CrossRag.Session.BuildExport` | cross_rag_query_app.py:534-565 | The export is the title block, then the section of each stored key in the fixed order: synthesis, court documents, communications. |
| `CrossRag.Session.AppendExportSection` | cross_rag_query_app.py:543-565 | One section is appended exactly when its key is stored. |
| `CrossRag.ExportStep` | cross_rag_query_app.py:543-565 | Each conditional append extends the export by the next stored key's section in the fixed order. |
| `CrossRag.PresentMembers` | cross_rag_query_app.py:543-565 | A section is written for a key, with that key's record, if and only if the key is stored. |
| `CrossRag.PresentFollowsOrder` | cross_rag_query_app.py:534-565 | Sections appear in the fixed order, each at most once. |
| `CrossRag.ExportSections` | cross_rag_query_app.py:534-565 | The export written by `BuildExport` has a section for a key, with that key's record, exactly when the key is stored, and its sections come in the order synthesis, court documents, communications. |
| `SearchResults.AddHit` | supabase_query.py:136-148 | Definition the listed contracts are stated against: one pass of the grouping loop: open the file's group on its first hit, then append the chunk (`GroupHits`, `GroupsOfFaithful`). |
| `SearchResults.GroupsOf` | supabase_query.py:134-148 | Definition the listed contracts are stated against: the groups after the loop has consumed the hits, `AddHit` folded left (`GroupHits`, `GroupsOfFaithful`, `GroupCount`, `GroupSizesSum`). |
| `SearchResults.MaxSimilarity` | supabase_query.py:159-166 | Definition the listed contracts are stated against: Python's `max` over a group's chunk similarities, the sort key and the shown relevance (`MaxSimilarityIsMax`, `SectionRelevance`). |
| `SearchResults.TopChunks` | supabase_query.py:172-179 | Definition the listed contracts are stated against: the first at most three chunks of the stable descending sort by similarity (`TopChunksAreBest`, `SectionShown`). |
| `SearchResults.DisplayType` | supabase_query.py:165 | Definition the listed contracts are stated against: `replace('_', ' ').title()` of the document type (`ReplaceChar`, `TitleCaseAt`, `SectionOfFile`). |
| `SearchResults.SearchHeading` | supabase_query.py:152 | Definition the listed contracts are stated against: the query heading line (`HeaderCounts`). |
| `SearchResults.CountLine` | supabase_query.py:153 | Definition the listed contracts are stated against: the line counting passages and documents (`HeaderCounts`, `RowsEnvelope`). |
| `SearchResults.DocHeading` | supabase_query.py:168 | Definition the listed contracts are stated against: a file's `## n. filename` heading (`AppendSection`, `SectionsNumbered`). |
| `SearchResults.TypeLine` | supabase_query.py:169 | Definition the listed contracts are stated against: a file's type and relevance line (`AppendSection`, `Percent`). |
| `SearchResults.ChunkHeading` | supabase_query.py:180-183 | Definition the listed contracts are stated against: a chunk's `Chunk i/n` label with its similarity (`ChunkLinesLayout`). |
| `SearchResults.ChunkBlock` | supabase_query.py:183-185 | Definition the listed contracts are stated against: the three lines of one shown chunk (`AppendChunks`, `ChunkLinesLayout`). |
| `SearchResults.FormatSpec` | supabase_query.py:127-187 | Definition the listed contracts are stated against: the report as a function: "No results found." for no hits, otherwise the header and the ranked sections joined with newlines (`FormatSearchResults`, `NoResultsExactlyWhenEmpty`, `ReportLayout`). |
| `Text.Join` | supabase_query.py:187 | Definition the listed contracts are stated against: `"\n".join(output)` (`FormatSearchResults`, `JoinStartsWithFirst`). |
| `Text.TitleCase` | supabase_query.py:165 | Definition the listed contracts are stated against: `str.title()` on ASCII letters (`TitleCaseAt`). |
| `Text.IntToString` | supabase_query.py:180 | Definition the listed contracts are stated against: `str()` of the chunk index and the chunk total in the chunk label (`ChunkHeading`). |
| `CrossRag.SupabaseEnabled` | cross_rag_query_app.py:127 | Definition the listed contracts are stated against: the modes that search the court documents (`ModeSources`, `ParallelExactlyBothEnabled`). |
| `CrossRag.GraphragEnabled` | cross_rag_query_app.py:135 | Definition the listed contracts are stated against: the modes that query the communications (`ModeSources`, `ParallelExactlyBothEnabled`). |
| `CrossRag.RunParallel` | cross_rag_query_app.py:260 | Definition the listed contracts are stated against: the parallel rule (`ParallelExactlyBothEnabled`, `ParallelStoresBoth`, `ContradictionNeverSynthesizes`). |
| `CrossRag.SynthesisDefault` | cross_rag_query_app.py:149 | Definition the listed contracts are stated against: the checkbox's default, ticked only in contradiction mode (`SynthesisEnabled`, `CheckboxNeverSynthesizes`). |
| `CrossRag.CachedSupabaseQuery` | cross_rag_query_app.py:34-37 | Definition the listed contracts are stated against: the court search: the envelope of the remote call's outcome, or the exception passed on (`ParallelStoresBoth`, `SameCourtRecordOnEitherPath`). |
| `CrossRag.CachedGraphragQuery` | cross_rag_query_app.py:39-42 | Definition the listed contracts are stated against: the graph query, whose method argument does not reach the call (`GraphMethodIgnored`). |
| `CrossRag.SequentialSearches` | cross_rag_query_app.py:330-394 | Definition the listed contracts are stated against: the sequential path's searches, court documents then communications, each only when enabled (`SynthesisRuns`, `SynthesisNeedsBothRecords`, `DisabledSourceKept`). |
| `CrossRag.SynthesisGuard` | cross_rag_query_app.py:397 | Definition the listed contracts are stated against: synthesis enabled and both records stored (`SynthesisRuns`, `SynthesisNeedsBothRecords`). |
| `CrossRag.NextResults` | cross_rag_query_app.py:259-427 | Definition the listed contracts are stated against: the stored results after one query, either path (`Session.ExecuteQuery` and the lemmas `ResultsOnlyGrow` to `CheckboxNeverSynthesizes`). |
| `CrossRag.ExportOffered` | cross_rag_query_app.py:430-511 | Definition the listed contracts are stated against: some result stored and, with synthesis enabled, the synthesis stored too, since the export goes to the fourth tab (`TickedCheckboxHidesExport`). |
| `CrossRag.TitleBlock` | cross_rag_query_app.py:534-541 | Definition the listed contracts are stated against: the export's title, query and date block (`Session.BuildExport`). |
| `CrossRag.Block` | cross_rag_query_app.py:543-565 | Definition the listed contracts are stated against: the section written for a stored key, with its `No report` or `No results` fallback (`Session.BuildExport`, `Session.AppendExportSection`). |
| `StableSort.Insert` | supabase_query.py:157-176 | Definition the listed contracts are stated against: one step of the stable descending sort: the element goes before the first one whose key is not above its own (`SortDescSorted`, `SortDescPermutes`, `SortDescStable`). |
| `StableSort.SortDesc` | supabase_query.py:157-176 | Definition the listed contracts are stated against: `sorted(..., key=..., reverse=True)`, a stable sort by descending key (`SortDescSorted`, `SortDescPermutes`, `SortDescStable`, `SortDescTiesKeepOrder`, `PrefixIsBest`). |
| `SearchResults.RankedGroups` | supabase_query.py:157-161 | Definition the listed contracts are stated against: `sorted_docs`: the groups by best similarity, descending, stable (`SectionsRanked`, `EqualRelevanceKeepsFirstAppearance`, `RankedGroupsArePermutation`). |
| `SearchResults.MakeSection` | supabase_query.py:163-179 | Definition the listed contracts are stated against: what one pass of the file loop shows: number, filename, display type, relevance and top chunks (`SectionOfFile`, `SectionIsRanked`). |
| `SearchResults.Numbered` | supabase_query.py:163 | Definition the listed contracts are stated against: `enumerate(sorted_docs, 1)`: the sections of the groups in order, numbered from 1 (`SectionsNumbered`, `SectionIsRanked`). |
| `SearchResults.Sections` | supabase_query.py:157-179 | Definition the listed contracts are stated against: the sections of the report in rank order (`SectionsCount`, `SectionsDistinct`, `SeenFileHasSection`, `SectionFileSeen`, `SectionShown`). |
| `SearchResults.HeaderLines` | supabase_query.py:151-154 | Definition the listed contracts are stated against: the first three entries of `output` (`HeaderCounts`, `RowsEnvelope`). |
| `SearchResults.SectionLines` | supabase_query.py:168-185 | Definition the listed contracts are stated against: the entries one file adds to `output` (`AppendSection`, `ReportLayout`, `ChunkLinesLayout`). |
| `SearchResults.ReportLines` | supabase_query.py:150-185 | Definition the listed contracts are stated against: the whole `output` list: header, then each section's entries (`FormatSearchResults`, `ReportLayout`, `RowsEnvelope`). |
| `SearchResults.ChunkOf` | supabase_query.py:143-148 | Definition the listed contracts are stated against: the chunk dictionary appended for a hit (`GroupsOfFaithful`, `GroupOfFile`). |
| `SearchResults.NewGroup` | supabase_query.py:137-142 | Definition the listed contracts are stated against: the `docs[filename]` entry a file's first hit opens: its type, no chunks, its metadata or `{}` (`GroupsOfFaithful`). |
| `SearchResults.FindGroup` | supabase_query.py:137 | Definition the listed contracts are stated against: the `filename not in docs` lookup: where the file's group is, or the end when it has none (`HasGroupIffSeen`, `GroupsOfFaithful`). |
| `Text.NatToString` | supabase_query.py:153-168 | Definition the listed contracts are stated against: `str(n)` of a count or a section number (`ParseNatToString`, `HeaderCounts`). |
| `CrossRag.Present` | cross_rag_query_app.py:543-565 | Definition the listed contracts are stated against: the three `if key in st.session_state.results` tests: the stored keys of the order, each with its record (`PresentMembers`, `PresentFollowsOrder`, `ExportSections`, `Session.BuildExport`). |
| `CrossRag.ErrorRecord` | cross_rag_query_app.py:275-276 | Definition the listed contracts are stated against: `{'status': 'ERROR', 'error': str(e)}`, the record an exception is stored as (`WrapCall`, `WrapCallKeepsMessage`). |
| `CrossRag.CourtRecordFor` | cross_rag_query_app.py:267-276 | Definition the listed contracts are stated against: the wrapped court call, as the thread function and the sequential block store it (`ParallelStoresBoth`, `SameCourtRecordOnEitherPath`). |
| `CrossRag.CommsRecordFor` | cross_rag_query_app.py:278-288 | Definition the listed contracts are stated against: the wrapped communications call under the topic `custom_query` (`ParallelStoresBoth`, `GraphMethodIgnored`). |

## Left out

- Streamlit rendering: CSS, headers, tabs, buttons, spinners, status widgets, the templates and the re-run button. These are presentation only.
  - The result tabs (cross_rag_query_app.py:451-507) are left out.
  - The export tab's presence is kept.
- `st.cache_data` and its one-hour expiry. The services are functions, so a repeated call gives the same outcome as a cached one. The expiry and `cache_data.clear()` are wall-clock behaviour.
- The thread pool. The parallel path is two independent calls whose wrapped outcomes are both stored, court record first, as in the source.
- Timestamps and dates are strings given as inputs. The `HH:MM` prefix of the history buttons (`strftime`) is not modelled.
- The JSON export (`json.dumps`).
- The Supabase client, the RPC, the sentence-embedding model, `dotenv` and the secrets. The search service receives the query and the match count.
  - `match_threshold` and `document_type` only reach the RPC, so they are not modelled.
- `query_graphrag_pass2` and `simple_synthesis` are not part of this model. They are arbitrary service functions.
- Floating-point similarities are integers in thousandths. Rounding of `:.1%` beyond that resolution is not modelled.
- `SupabaseQuery.QuerySupabaseRag`: a row missing a key, or holding None in a field the formatter reads (`document_type`, `similarity`, `chunk_index`, `total_chunks`, `content`), would raise inside the `try` and give an ERROR envelope. Rows here always have every field, each of its type, so that path is not modelled.
- `result.data` being `None` is treated like an empty list, as Python's truthiness test does.
- The results map before the first query: Python has no `results` key, and the model has an empty map. The page treats both alike.
- `Text.TitleCaseAt`: only ASCII letters count as cased; Unicode case rules are not modelled.
- `CrossRag.SynthesisEnabled`: a disabled Streamlit checkbox is taken to show its default (unticked outside contradiction mode). Widget framework details beyond that are not modelled.
- Reply statuses other than SUCCESS and ERROR from the graph query or the synthesis matter only to the display, so a reply's status is one of those two.
- `CrossRag.Session.BuildExport`: the record's `report` or `results` text is taken as a string. A key present with a non-string value is not modelled.
