/**
 * The Markdown report built from the hits of a court-document vector search:
 * hits are grouped by file in order of first appearance, the files are ranked
 * by their best similarity (ties keep first-appearance order), and each file
 * shows its three most similar chunks.
 */
module SearchResults {
  import opened Common
  import opened Text
  import opened StableSort

  type Metadata = map<string, string>

  /**
   * One row of the search: a chunk of a court document. `similarity` is in
   * thousandths (a similarity of 0.853 is 853). `metadata` is None when the
   * row has no metadata key.
   */
  datatype Hit = Hit(
    filename: string,
    documentType: string,
    content: string,
    similarity: int,
    chunkIndex: int,
    totalChunks: int,
    metadata: Option<Metadata>)

  /** The part of a hit kept in its file's group. */
  datatype Chunk = Chunk(content: string, similarity: int, chunkIndex: int, totalChunks: int)

  /** The hits of one file: its type and metadata, and its chunks in hit order. */
  datatype Group = Group(filename: string, docType: string, chunks: seq<Chunk>, metadata: Metadata)

  /** How the report presents one file. */
  datatype Section = Section(
    number: nat,
    filename: string,
    typeLabel: string,
    relevance: int,
    shown: seq<Chunk>)

  /** Chunks shown per document. */
  const ChunksPerDocument: nat := 3

  const NoResults := "No results found."

  const Rule := "---\n"

  function ChunkOf(h: Hit): Chunk {
    Chunk(h.content, h.similarity, h.chunkIndex, h.totalChunks)
  }

  /** The group a file's first hit opens: its type and metadata, no chunks yet. */
  function NewGroup(h: Hit): Group {
    Group(h.filename, h.documentType, [], h.metadata.GetOr(map[]))
  }

  function Filename(g: Group): string {
    g.filename
  }

  function Similarity(c: Chunk): int {
    c.similarity
  }

  // ---------------------------------------------------------------------
  // Grouping: the dictionary of groups, kept in insertion order
  // ---------------------------------------------------------------------

  /** Where `docs` holds the group of file `f`; `|docs|` when it has none. */
  function FindGroup(docs: seq<Group>, f: string): (k: nat)
    ensures k <= |docs|
    ensures k < |docs| ==> docs[k].filename == f
    ensures forall i :: 0 <= i < k ==> docs[i].filename != f
    decreases |docs|
  {
    if docs == [] then 0
    else if docs[0].filename == f then 0
    else 1 + FindGroup(docs[1..], f)
  }

  predicate HasGroup(docs: seq<Group>, f: string) {
    FindGroup(docs, f) < |docs|
  }

  /** One step of the grouping loop: open the file's group if new, then append the chunk. */
  function AddHit(docs: seq<Group>, h: Hit): seq<Group> {
    var k := FindGroup(docs, h.filename);
    var withGroup := if k == |docs| then docs + [NewGroup(h)] else docs;
    withGroup[k := withGroup[k].(chunks := withGroup[k].chunks + [ChunkOf(h)])]
  }

  /** The groups after the grouping loop has consumed `hits`. */
  function GroupsOf(hits: seq<Hit>): seq<Group>
    decreases |hits|
  {
    if hits == [] then [] else AddHit(GroupsOf(hits[..|hits| - 1]), hits[|hits| - 1])
  }

  // ---------------------------------------------------------------------
  // Reference definitions the grouping is checked against
  // ---------------------------------------------------------------------

  /** The position of the first hit of file `f`; `|hits|` when there is none. */
  function FirstIndex(hits: seq<Hit>, f: string): (r: nat)
    ensures r <= |hits|
    ensures r < |hits| ==> hits[r].filename == f
    ensures forall j :: 0 <= j < r ==> hits[j].filename != f
    decreases |hits|
  {
    if hits == [] then 0
    else
      var p := hits[..|hits| - 1];
      var r := FirstIndex(p, f);
      if r < |p| then r else if hits[|p|].filename == f then |p| else |hits|
  }

  /** The chunks of the hits of file `f`, in hit order. */
  function ChunksNamed(hits: seq<Hit>, f: string): seq<Chunk>
    decreases |hits|
  {
    if hits == [] then []
    else
      var h := hits[|hits| - 1];
      ChunksNamed(hits[..|hits| - 1], f) + (if h.filename == f then [ChunkOf(h)] else [])
  }

  /** The distinct file names among the hits. */
  function Filenames(hits: seq<Hit>): set<string>
    decreases |hits|
  {
    if hits == [] then {} else Filenames(hits[..|hits| - 1]) + {hits[|hits| - 1].filename}
  }

  /** A file is among the hits' files exactly when it has a first hit. */
  lemma {:induction false} FilenamesMembers(hits: seq<Hit>, f: string)
    ensures f in Filenames(hits) <==> FirstIndex(hits, f) < |hits|
    decreases |hits|
  {
    if hits != [] {
      FilenamesMembers(hits[..|hits| - 1], f);
    }
  }

  /** Orders groups by where their file first appears in `hits`. */
  function FirstSeen(hits: seq<Hit>): Group -> int {
    (g: Group) => FirstIndex(hits, g.filename)
  }

  /** Each group's file is the file of some hit. */
  ghost predicate GroupsSeen(gs: seq<Group>, hits: seq<Hit>) {
    forall i :: 0 <= i < |gs| ==> FirstIndex(hits, gs[i].filename) < |hits|
  }

  /** Each hit's file has a group. */
  ghost predicate GroupsCover(gs: seq<Group>, hits: seq<Hit>) {
    forall j :: 0 <= j < |hits| ==> HasGroup(gs, hits[j].filename)
  }

  /** Each group holds exactly the chunks of its file's hits, in hit order. */
  ghost predicate GroupsHoldChunks(gs: seq<Group>, hits: seq<Hit>) {
    forall i :: 0 <= i < |gs| ==> gs[i].chunks == ChunksNamed(hits, gs[i].filename)
  }

  /** Each group takes its type and metadata from its file's first hit. */
  ghost predicate GroupsFromFirstHit(gs: seq<Group>, hits: seq<Hit>)
    requires GroupsSeen(gs, hits)
  {
    forall i :: 0 <= i < |gs| ==>
      var first := hits[FirstIndex(hits, gs[i].filename)];
      gs[i].docType == first.documentType && gs[i].metadata == first.metadata.GetOr(map[])
  }

  /**
   * What the grouping must produce: one group per file and no two for the
   * same file, each group holding exactly that file's chunks in hit order,
   * with the type and metadata of the file's first hit, the groups in order
   * of first appearance.
   */
  ghost predicate GroupsFaithful(gs: seq<Group>, hits: seq<Hit>) {
    && DistinctBy(gs, Filename)
    && GroupsSeen(gs, hits)
    && GroupsCover(gs, hits)
    && GroupsHoldChunks(gs, hits)
    && GroupsFromFirstHit(gs, hits)
    && IncreasingBy(gs, FirstSeen(hits))
  }

  lemma FirstIndexSnoc(p: seq<Hit>, h: Hit, f: string)
    ensures FirstIndex(p + [h], f) ==
      if FirstIndex(p, f) < |p| then FirstIndex(p, f)
      else if h.filename == f then |p| else |p| + 1
  {
    assert (p + [h])[..|p|] == p;
  }

  lemma ChunksNamedSnoc(p: seq<Hit>, h: Hit, f: string)
    ensures ChunksNamed(p + [h], f) ==
      ChunksNamed(p, f) + (if h.filename == f then [ChunkOf(h)] else [])
  {
    assert (p + [h])[..|p|] == p;
  }

  lemma {:induction false} ChunksNamedAbsent(hits: seq<Hit>, f: string)
    requires FirstIndex(hits, f) == |hits|
    ensures ChunksNamed(hits, f) == []
    decreases |hits|
  {
    if hits != [] {
      var p := hits[..|hits| - 1];
      assert FirstIndex(p, f) == |p|;
      ChunksNamedAbsent(p, f);
    }
  }

  lemma FilenamesSnoc(p: seq<Hit>, h: Hit)
    ensures Filenames(p + [h]) == Filenames(p) + {h.filename}
  {
    assert (p + [h])[..|p|] == p;
  }

  /** A file that has a group already: its chunk is appended there. */
  lemma AddHitExisting(gs: seq<Group>, h: Hit)
    requires HasGroup(gs, h.filename)
    ensures var k := FindGroup(gs, h.filename);
      AddHit(gs, h) == gs[k := gs[k].(chunks := gs[k].chunks + [ChunkOf(h)])]
  {
  }

  /** A file seen for the first time: a new group at the end. */
  lemma AddHitNew(gs: seq<Group>, h: Hit)
    requires !HasGroup(gs, h.filename)
    ensures AddHit(gs, h) == gs + [Group(h.filename, h.documentType, [ChunkOf(h)], h.metadata.GetOr(map[]))]
  {
    assert [] + [ChunkOf(h)] == [ChunkOf(h)];
  }

  /** The group of a file is found where it is. */
  lemma FindGroupAt(gs: seq<Group>, i: nat)
    requires i < |gs|
    ensures FindGroup(gs, gs[i].filename) <= i
  {
  }

  /** A file without a group has not been hit yet. */
  lemma NotYetSeen(gs: seq<Group>, p: seq<Hit>, f: string)
    requires GroupsCover(gs, p) && !HasGroup(gs, f)
    ensures FirstIndex(p, f) == |p|
  {
  }

  lemma StepDistinct(gs: seq<Group>, h: Hit)
    requires DistinctBy(gs, Filename)
    ensures DistinctBy(AddHit(gs, h), Filename)
  {
    var r := AddHit(gs, h);
    if HasGroup(gs, h.filename) {
      AddHitExisting(gs, h);
      forall i, j | 0 <= i < j < |r| ensures Filename(r[i]) != Filename(r[j]) {
        assert Filename(gs[i]) != Filename(gs[j]);
      }
    } else {
      AddHitNew(gs, h);
      forall i, j | 0 <= i < j < |r| ensures Filename(r[i]) != Filename(r[j]) {
        if j < |gs| { assert Filename(gs[i]) != Filename(gs[j]); }
      }
    }
  }

  lemma StepSeen(gs: seq<Group>, p: seq<Hit>, h: Hit)
    requires GroupsSeen(gs, p)
    ensures GroupsSeen(AddHit(gs, h), p + [h])
  {
    var r := AddHit(gs, h);
    forall i | 0 <= i < |r| ensures FirstIndex(p + [h], r[i].filename) < |p + [h]| {
      FirstIndexSnoc(p, h, r[i].filename);
      if HasGroup(gs, h.filename) {
        AddHitExisting(gs, h);
      } else {
        AddHitNew(gs, h);
      }
    }
  }

  lemma StepCover(gs: seq<Group>, p: seq<Hit>, h: Hit)
    requires GroupsCover(gs, p)
    ensures GroupsCover(AddHit(gs, h), p + [h])
  {
    var r := AddHit(gs, h);
    var hits := p + [h];
    forall j | 0 <= j < |hits| ensures HasGroup(r, hits[j].filename) {
      var i := if j < |p| then FindGroup(gs, p[j].filename) else FindGroup(gs, h.filename);
      if HasGroup(gs, h.filename) {
        AddHitExisting(gs, h);
      } else {
        AddHitNew(gs, h);
        if j == |p| { i := |gs|; }
      }
      assert r[i].filename == hits[j].filename;
      FindGroupAt(r, i);
    }
  }

  lemma StepChunks(gs: seq<Group>, p: seq<Hit>, h: Hit)
    requires DistinctBy(gs, Filename) && GroupsCover(gs, p) && GroupsHoldChunks(gs, p)
    ensures GroupsHoldChunks(AddHit(gs, h), p + [h])
  {
    var r := AddHit(gs, h);
    forall i | 0 <= i < |r| ensures r[i].chunks == ChunksNamed(p + [h], r[i].filename) {
      ChunksNamedSnoc(p, h, r[i].filename);
      if HasGroup(gs, h.filename) {
        AddHitExisting(gs, h);
        var k := FindGroup(gs, h.filename);
        if i < k {
          assert Filename(gs[i]) != Filename(gs[k]);
        } else if k < i {
          assert Filename(gs[k]) != Filename(gs[i]);
        }
      } else {
        AddHitNew(gs, h);
        if i == |gs| {
          NotYetSeen(gs, p, h.filename);
          ChunksNamedAbsent(p, h.filename);
        }
      }
    }
  }

  lemma StepFirstHit(gs: seq<Group>, p: seq<Hit>, h: Hit)
    requires GroupsSeen(gs, p) && GroupsCover(gs, p) && GroupsFromFirstHit(gs, p)
    ensures GroupsSeen(AddHit(gs, h), p + [h])
    ensures GroupsFromFirstHit(AddHit(gs, h), p + [h])
  {
    StepSeen(gs, p, h);
    var r := AddHit(gs, h);
    var hits := p + [h];
    forall i | 0 <= i < |r|
      ensures r[i].docType == hits[FirstIndex(hits, r[i].filename)].documentType
      ensures r[i].metadata == hits[FirstIndex(hits, r[i].filename)].metadata.GetOr(map[])
    {
      FirstIndexSnoc(p, h, r[i].filename);
      if HasGroup(gs, h.filename) {
        AddHitExisting(gs, h);
      } else {
        AddHitNew(gs, h);
        if i == |gs| { NotYetSeen(gs, p, h.filename); }
      }
    }
  }

  lemma StepOrder(gs: seq<Group>, p: seq<Hit>, h: Hit)
    requires GroupsSeen(gs, p) && GroupsCover(gs, p) && IncreasingBy(gs, FirstSeen(p))
    ensures IncreasingBy(AddHit(gs, h), FirstSeen(p + [h]))
  {
    var r := AddHit(gs, h);
    var hits := p + [h];
    forall i, j | 0 <= i < j < |r| ensures FirstSeen(hits)(r[i]) < FirstSeen(hits)(r[j]) {
      FirstIndexSnoc(p, h, r[i].filename);
      FirstIndexSnoc(p, h, r[j].filename);
      if HasGroup(gs, h.filename) {
        AddHitExisting(gs, h);
        assert FirstSeen(p)(gs[i]) < FirstSeen(p)(gs[j]);
      } else {
        AddHitNew(gs, h);
        if j < |gs| {
          assert FirstSeen(p)(gs[i]) < FirstSeen(p)(gs[j]);
        } else {
          NotYetSeen(gs, p, h.filename);
        }
      }
    }
  }

  /** One grouping step keeps the groups faithful to the hits seen so far. */
  lemma AddHitFaithful(gs: seq<Group>, hits: seq<Hit>)
    requires |hits| > 0 && GroupsFaithful(gs, hits[..|hits| - 1])
    ensures GroupsFaithful(AddHit(gs, hits[|hits| - 1]), hits)
  {
    var p, h := hits[..|hits| - 1], hits[|hits| - 1];
    assert hits == p + [h];
    StepDistinct(gs, h);
    StepCover(gs, p, h);
    StepChunks(gs, p, h);
    StepFirstHit(gs, p, h);
    StepOrder(gs, p, h);
  }

  /**
   * Every hit lands in exactly one group, the group of its file; a group holds
   * exactly its file's chunks in hit order and takes its type and metadata
   * from the file's first hit; groups come in order of first appearance.
   */
  lemma {:induction false} GroupsOfFaithful(hits: seq<Hit>)
    ensures GroupsFaithful(GroupsOf(hits), hits)
    decreases |hits|
  {
    if hits != [] {
      GroupsOfFaithful(hits[..|hits| - 1]);
      AddHitFaithful(GroupsOf(hits[..|hits| - 1]), hits);
    }
  }

  lemma GroupsOfDistinct(hits: seq<Hit>)
    ensures DistinctBy(GroupsOf(hits), Filename)
  {
    GroupsOfFaithful(hits);
  }

  lemma GroupsOfSeen(hits: seq<Hit>)
    ensures GroupsSeen(GroupsOf(hits), hits)
  {
    GroupsOfFaithful(hits);
  }

  lemma GroupsOfCover(hits: seq<Hit>)
    ensures GroupsCover(GroupsOf(hits), hits)
  {
    GroupsOfFaithful(hits);
  }

  lemma GroupsOfChunks(hits: seq<Hit>)
    ensures GroupsHoldChunks(GroupsOf(hits), hits)
  {
    GroupsOfFaithful(hits);
  }

  lemma GroupsOfFirstHit(hits: seq<Hit>)
    ensures GroupsSeen(GroupsOf(hits), hits)
    ensures GroupsFromFirstHit(GroupsOf(hits), hits)
  {
    GroupsOfFaithful(hits);
  }

  /** What the grouping pass holds for the file of group `i`. */
  lemma GroupOfFile(hits: seq<Hit>, i: nat)
    requires i < |GroupsOf(hits)|
    ensures var g := GroupsOf(hits)[i];
      && FirstIndex(hits, g.filename) < |hits|
      && g.docType == hits[FirstIndex(hits, g.filename)].documentType
      && g.chunks == ChunksNamed(hits, g.filename)
  {
    GroupsOfFirstHit(hits);
    GroupsOfChunks(hits);
  }

  lemma GroupsOfOrder(hits: seq<Hit>)
    ensures IncreasingBy(GroupsOf(hits), FirstSeen(hits))
  {
    GroupsOfFaithful(hits);
  }

  /** Total number of chunks held by the groups. */
  function SumSizes(gs: seq<Group>): nat
    decreases |gs|
  {
    if gs == [] then 0 else SumSizes(gs[..|gs| - 1]) + |gs[|gs| - 1].chunks|
  }

  lemma {:induction false} SumSizesUpdate(gs: seq<Group>, k: nat, g: Group)
    requires k < |gs|
    ensures SumSizes(gs[k := g]) == SumSizes(gs) - |gs[k].chunks| + |g.chunks|
    decreases |gs|
  {
    var n := |gs| - 1;
    var u := gs[k := g];
    assert u[..n] == if k == n then gs[..n] else gs[..n][k := g];
    if k < n { SumSizesUpdate(gs[..n], k, g); }
  }

  /** The groups hold as many chunks as there are hits. */
  lemma {:induction false} GroupSizesSum(hits: seq<Hit>)
    ensures SumSizes(GroupsOf(hits)) == |hits|
    decreases |hits|
  {
    if hits != [] {
      var p := hits[..|hits| - 1];
      var h := hits[|hits| - 1];
      var gs := GroupsOf(p);
      GroupSizesSum(p);
      var k := FindGroup(gs, h.filename);
      var withGroup := if k == |gs| then gs + [NewGroup(h)] else gs;
      if k == |gs| {
        assert withGroup[..|gs|] == gs;
      }
      assert SumSizes(withGroup) == |p|;
      SumSizesUpdate(withGroup, k, withGroup[k].(chunks := withGroup[k].chunks + [ChunkOf(h)]));
    }
  }

  /** A step opens a group exactly when the file has none yet. */
  lemma AddHitLength(gs: seq<Group>, h: Hit)
    ensures |AddHit(gs, h)| == if HasGroup(gs, h.filename) then |gs| else |gs| + 1
  {
  }

  /** After the grouping pass, a file has a group exactly when some hit names it. */
  lemma HasGroupIffSeen(hits: seq<Hit>, f: string)
    ensures HasGroup(GroupsOf(hits), f) <==> f in Filenames(hits)
  {
    var gs := GroupsOf(hits);
    GroupsOfSeen(hits);
    GroupsOfCover(hits);
    FilenamesMembers(hits, f);
    if HasGroup(gs, f) {
      assert FirstIndex(hits, gs[FindGroup(gs, f)].filename) < |hits|;
    }
  }

  /** There is one group per distinct file name. */
  lemma {:induction false} GroupCount(hits: seq<Hit>)
    ensures |GroupsOf(hits)| == |Filenames(hits)|
    decreases |hits|
  {
    if hits != [] {
      var p, h := hits[..|hits| - 1], hits[|hits| - 1];
      GroupCount(p);
      HasGroupIffSeen(p, h.filename);
      AddHitLength(GroupsOf(p), h);
      assert Filenames(hits) == Filenames(p) + {h.filename};
    }
  }

  // ---------------------------------------------------------------------
  // Ranking
  // ---------------------------------------------------------------------

  /** Python's `max` of the chunk similarities; 0 for no chunks, which no group has. */
  function MaxSimilarity(cs: seq<Chunk>): int
    decreases |cs|
  {
    if cs == [] then 0
    else if |cs| == 1 then cs[0].similarity
    else
      var t := MaxSimilarity(cs[1..]);
      if cs[0].similarity >= t then cs[0].similarity else t
  }

  /** The maximum is the similarity of some chunk and no chunk is above it. */
  lemma {:induction false} MaxSimilarityIsMax(cs: seq<Chunk>)
    requires |cs| > 0
    ensures exists i :: 0 <= i < |cs| && cs[i].similarity == MaxSimilarity(cs)
    ensures forall i :: 0 <= i < |cs| ==> cs[i].similarity <= MaxSimilarity(cs)
    decreases |cs|
  {
    if |cs| == 1 {
      assert cs[0].similarity == MaxSimilarity(cs);
    } else {
      MaxSimilarityIsMax(cs[1..]);
      assert forall i :: 1 <= i < |cs| ==> cs[i] == cs[1..][i - 1];
      if cs[0].similarity >= MaxSimilarity(cs[1..]) {
        assert cs[0].similarity == MaxSimilarity(cs);
      } else {
        var i :| 0 <= i < |cs[1..]| && cs[1..][i].similarity == MaxSimilarity(cs[1..]);
        assert cs[i + 1].similarity == MaxSimilarity(cs);
      }
    }
  }

  /** A group's rank: its best similarity. */
  function GroupKey(g: Group): int {
    MaxSimilarity(g.chunks)
  }

  /** The groups in report order: by best similarity, descending, stable. */
  function RankedGroups(hits: seq<Hit>): seq<Group> {
    SortDesc(GroupsOf(hits), GroupKey)
  }

  /** A file's most similar chunks, best first, at most three. */
  function TopChunks(cs: seq<Chunk>): seq<Chunk> {
    var s := SortDesc(cs, Similarity);
    s[..Min(ChunksPerDocument, |s|)]
  }

  /** The document type as shown: underscores become spaces, then title case. */
  function DisplayType(t: string): string {
    TitleCase(ReplaceChar(t, '_', ' '))
  }

  function MakeSection(n: nat, g: Group): Section {
    Section(n, g.filename, DisplayType(g.docType), MaxSimilarity(g.chunks), TopChunks(g.chunks))
  }

  /** The sections of groups taken in the given order, numbered from 1. */
  function Numbered(gs: seq<Group>): seq<Section> {
    seq(|gs|, k requires 0 <= k < |gs| => MakeSection(k + 1, gs[k]))
  }

  /** The files of the report, numbered from 1 in report order. */
  function Sections(hits: seq<Hit>): seq<Section> {
    Numbered(RankedGroups(hits))
  }

  // ---------------------------------------------------------------------
  // Rendering
  // ---------------------------------------------------------------------

  function SearchHeading(query: string): string {
    "# Search Results for: " + query + "\n"
  }

  function CountLine(passages: nat, documents: nat): string {
    "**Found " + NatToString(passages) + " relevant passages from " + NatToString(documents) + " documents**\n"
  }

  function HeaderLines(query: string, passages: nat, documents: nat): seq<string> {
    [SearchHeading(query), CountLine(passages, documents), Rule]
  }

  function DocHeading(n: nat, filename: string): string {
    "## " + NatToString(n) + ". " + filename
  }

  function TypeLine(typeLabel: string, relevance: int): string {
    "**Type:** " + typeLabel + " | **Relevance:** " + Percent(relevance) + "\n"
  }

  /** The label `Chunk i/n`, counting chunks from 1, and the chunk's similarity. */
  function ChunkHeading(c: Chunk): string {
    "### Chunk " + IntToString(c.chunkIndex + 1) + "/" + IntToString(c.totalChunks) +
    " (Similarity: " + Percent(c.similarity) + ")\n"
  }

  /** The three lines of one shown chunk. */
  function ChunkBlock(c: Chunk): seq<string> {
    [ChunkHeading(c), c.content + "\n", Rule]
  }

  /** The lines of one file: its heading, its type line, then its shown chunks. */
  function SectionLines(s: Section): seq<string> {
    [DocHeading(s.number, s.filename), TypeLine(s.typeLabel, s.relevance)] + FlatMap(s.shown, ChunkBlock)
  }

  /** The lines of the report for a non-empty hit list. */
  function ReportLines(hits: seq<Hit>, query: string): seq<string> {
    HeaderLines(query, |hits|, |GroupsOf(hits)|) + FlatMap(Sections(hits), SectionLines)
  }

  /** The report text. */
  function FormatSpec(hits: seq<Hit>, query: string): string {
    if hits == [] then NoResults else Join(ReportLines(hits, query), "\n")
  }

  /** The grouping loop: one pass over the hits, in order. */
  method GroupHits(results: seq<Hit>) returns (docs: seq<Group>)
    ensures docs == GroupsOf(results)
  {
    docs := [];
    for i := 0 to |results|
      invariant docs == GroupsOf(results[..i])
    {
      var result := results[i];
      var k := FindGroup(docs, result.filename);
      if k == |docs| {
        docs := docs + [NewGroup(result)];
      }
      docs := docs[k := docs[k].(chunks := docs[k].chunks + [ChunkOf(result)])];
      assert results[..i + 1][..i] == results[..i];
    }
    assert results[..|results|] == results;
  }

  /** The chunk loop: three lines per shown chunk, appended to `output`. */
  method AppendChunks(output: seq<string>, top: seq<Chunk>) returns (out: seq<string>)
    ensures out == output + FlatMap(top, ChunkBlock)
  {
    out := output;
    for c := 0 to |top|
      invariant out == output + FlatMap(top[..c], ChunkBlock)
    {
      ghost var prev := out;
      var chunk := top[c];
      out := out + [ChunkHeading(chunk)];
      out := out + [chunk.content + "\n"];
      out := out + [Rule];
      AppendEach(prev, ChunkBlock(chunk));
      FlatMapSnoc(top, ChunkBlock, c);
      AppendAssoc(output, FlatMap(top[..c], ChunkBlock), ChunkBlock(chunk));
    }
    assert top[..|top|] == top;
  }

  /**
   * The formatter: group the hits in one pass, emit the header, then each
   * ranked file with its top chunks, and join the lines with newlines.
   */
  method FormatSearchResults(results: seq<Hit>, query: string) returns (text: string)
    ensures text == FormatSpec(results, query)
  {
    if |results| == 0 {
      return NoResults;
    }

    var docs := GroupHits(results);

    var output: seq<string> := [];
    output := output + [SearchHeading(query)];
    output := output + [CountLine(|results|, |docs|)];
    output := output + [Rule];
    AppendEach([], HeaderLines(query, |results|, |docs|));
    ghost var header := HeaderLines(query, |results|, |docs|);
    assert output == header;

    var sortedDocs := SortDesc(docs, GroupKey);
    output := AppendSections(output, sortedDocs);
    assert Numbered(sortedDocs) == Sections(results);
    assert output == ReportLines(results, query);

    text := Join(output, "\n");
  }

  /** The file loop: each file's lines, in the given order, numbered from 1. */
  method AppendSections(output: seq<string>, sortedDocs: seq<Group>) returns (out: seq<string>)
    ensures out == output + FlatMap(Numbered(sortedDocs), SectionLines)
  {
    out := output;
    ghost var sections := Numbered(sortedDocs);
    for d := 0 to |sortedDocs|
      invariant out == output + FlatMap(sections[..d], SectionLines)
    {
      out := AppendSection(out, d + 1, sortedDocs[d]);
      assert sections[d] == MakeSection(d + 1, sortedDocs[d]);
      FlatMapSnoc(sections, SectionLines, d);
      AppendAssoc(output, FlatMap(sections[..d], SectionLines), SectionLines(sections[d]));
    }
    assert sections[..|sortedDocs|] == sections;
  }

  /** The body of the file loop: the file's heading, its type line, then its top chunks. */
  method AppendSection(output: seq<string>, docNum: nat, doc: Group) returns (out: seq<string>)
    ensures out == output + SectionLines(MakeSection(docNum, doc))
  {
    var docType := DisplayType(doc.docType);
    var maxSimilarity := MaxSimilarity(doc.chunks);
    out := output + [DocHeading(docNum, doc.filename)];
    out := out + [TypeLine(docType, maxSimilarity)];
    ghost var titled := out;

    var sortedChunks := SortDesc(doc.chunks, Similarity);
    var top := sortedChunks[..Min(ChunksPerDocument, |sortedChunks|)];
    out := AppendChunks(out, top);

    assert titled == output + [DocHeading(docNum, doc.filename), TypeLine(docType, maxSimilarity)];
    AppendAssoc(output, [DocHeading(docNum, doc.filename), TypeLine(docType, maxSimilarity)], FlatMap(top, ChunkBlock));
  }

  // ---------------------------------------------------------------------
  // What the report promises
  // ---------------------------------------------------------------------

  /** The "no results" text is produced exactly for an empty hit list. */
  lemma NoResultsExactlyWhenEmpty(hits: seq<Hit>, query: string)
    ensures FormatSpec(hits, query) == NoResults <==> hits == []
  {
    if hits != [] {
      var lines := ReportLines(hits, query);
      JoinStartsWithFirst(lines, "\n");
      var text := Join(lines, "\n");
      assert text[0] == lines[0][0] == '#';
    }
  }

  /** The header reports the number of hits and the number of distinct files. */
  lemma HeaderCounts(hits: seq<Hit>, query: string)
    ensures ReportLines(hits, query)[..3] ==
      [SearchHeading(query), CountLine(|hits|, |Filenames(hits)|), Rule]
  {
    GroupCount(hits);
  }

  lemma {:induction false} ChunksNamedPresent(hits: seq<Hit>, f: string)
    requires FirstIndex(hits, f) < |hits|
    ensures |ChunksNamed(hits, f)| > 0
    decreases |hits|
  {
    var p := hits[..|hits| - 1];
    if FirstIndex(p, f) < |p| { ChunksNamedPresent(p, f); }
  }

  /** Every group has at least one chunk, so its best similarity is a real maximum. */
  lemma GroupsNonEmpty(hits: seq<Hit>, i: nat)
    requires i < |GroupsOf(hits)|
    ensures |GroupsOf(hits)[i].chunks| > 0
  {
    GroupsOfSeen(hits);
    ChunksNamedPresent(hits, GroupsOf(hits)[i].filename);
    GroupsOfChunks(hits);
  }

  /** The report's files are numbered 1, 2, ... in order. */
  lemma SectionsNumbered(hits: seq<Hit>)
    ensures forall k :: 0 <= k < |Sections(hits)| ==> Sections(hits)[k].number == k + 1
  {
  }

  /** The report's files are ranked by best similarity, descending. */
  lemma SectionsRanked(hits: seq<Hit>)
    ensures var ss := Sections(hits);
      forall i, j :: 0 <= i < j < |ss| ==> ss[i].relevance >= ss[j].relevance
  {
    var r, ss := RankedGroups(hits), Sections(hits);
    SortDescSorted(GroupsOf(hits), GroupKey);
    forall i, j | 0 <= i < j < |ss| ensures ss[i].relevance >= ss[j].relevance {
      SectionIsRanked(hits, i);
      SectionIsRanked(hits, j);
      assert GroupKey(r[i]) >= GroupKey(r[j]);
    }
  }


  /** Each ranked group is one of the groups, and each group is ranked somewhere. */
  lemma RankedGroupsArePermutation(hits: seq<Hit>)
    ensures multiset(RankedGroups(hits)) == multiset(GroupsOf(hits))
    ensures forall g :: g in RankedGroups(hits) <==> g in GroupsOf(hits)
  {
    var r, gs := RankedGroups(hits), GroupsOf(hits);
    SortDescPermutes(gs, GroupKey);
    forall g ensures g in r <==> g in gs {
      assert g in r <==> g in multiset(r);
      assert g in gs <==> g in multiset(gs);
    }
  }

  /** The report has one section per distinct file. */
  lemma SectionsCount(hits: seq<Hit>)
    ensures |Sections(hits)| == |Filenames(hits)|
  {
    GroupCount(hits);
  }

  /** No file has two sections. */
  lemma SectionsDistinct(hits: seq<Hit>)
    ensures var ss := Sections(hits);
      forall i, j :: 0 <= i < j < |ss| ==> ss[i].filename != ss[j].filename
  {
    var r := RankedGroups(hits);
    var ss := Sections(hits);
    GroupsOfDistinct(hits);
    SortDescKeepsDistinct(GroupsOf(hits), GroupKey, Filename);
    forall i, j | 0 <= i < j < |ss| ensures ss[i].filename != ss[j].filename {
      assert Filename(r[i]) != Filename(r[j]);
    }
  }

  /** Section `k` presents the group ranked `k`-th, numbered `k + 1` (`Numbered` read at index `k`). */
  lemma SectionIsRanked(hits: seq<Hit>, k: nat)
    requires k < |Sections(hits)|
    ensures |RankedGroups(hits)| == |Sections(hits)|
    ensures Sections(hits)[k] == MakeSection(k + 1, RankedGroups(hits)[k])
  {
  }

  /** The group ranked `k`-th is one of the groups. */
  lemma RankedGroupIn(hits: seq<Hit>, k: nat) returns (i: nat)
    requires k < |RankedGroups(hits)|
    ensures i < |GroupsOf(hits)| && GroupsOf(hits)[i] == RankedGroups(hits)[k]
  {
    RankedGroupsArePermutation(hits);
    var gs, r := GroupsOf(hits), RankedGroups(hits);
    assert r[k] in gs;
    i :| 0 <= i < |gs| && gs[i] == r[k];
  }

  /** Each group is ranked somewhere. */
  lemma GroupRankedAt(hits: seq<Hit>, i: nat) returns (k: nat)
    requires i < |GroupsOf(hits)|
    ensures k < |RankedGroups(hits)| && RankedGroups(hits)[k] == GroupsOf(hits)[i]
  {
    RankedGroupsArePermutation(hits);
    var gs, r := GroupsOf(hits), RankedGroups(hits);
    assert gs[i] in r;
    k :| 0 <= k < |r| && r[k] == gs[i];
  }

  /** Every file some hit names has a section. */
  lemma SeenFileHasSection(hits: seq<Hit>, f: string) returns (k: nat)
    requires f in Filenames(hits)
    ensures k < |Sections(hits)| && Sections(hits)[k].filename == f
  {
    var gs := GroupsOf(hits);
    HasGroupIffSeen(hits, f);
    k := GroupRankedAt(hits, FindGroup(gs, f));
  }

  /** Every section is of a file some hit names. */
  lemma SectionFileSeen(hits: seq<Hit>, k: nat)
    requires k < |Sections(hits)|
    ensures Sections(hits)[k].filename in Filenames(hits)
  {
    var gs := GroupsOf(hits);
    var i := RankedGroupIn(hits, k);
    FindGroupAt(gs, i);
    HasGroupIffSeen(hits, gs[i].filename);
  }

  /**
   * Files with the same best similarity keep their order of first appearance
   * (the ranking sort is stable).
   */
  lemma EqualRelevanceKeepsFirstAppearance(hits: seq<Hit>, i: nat, j: nat)
    requires i < j < |Sections(hits)|
    requires Sections(hits)[i].relevance == Sections(hits)[j].relevance
    ensures FirstIndex(hits, Sections(hits)[i].filename) < FirstIndex(hits, Sections(hits)[j].filename)
  {
    var r := RankedGroups(hits);
    SectionIsRanked(hits, i);
    SectionIsRanked(hits, j);
    assert GroupKey(r[i]) == GroupKey(r[j]);
    GroupsOfOrder(hits);
    SortDescTiesKeepOrder(GroupsOf(hits), GroupKey, FirstSeen(hits), i, j);
    assert FirstSeen(hits)(r[i]) < FirstSeen(hits)(r[j]);
  }

  /** The first at most three chunks of the descending sort: the best of the file. */
  lemma TopChunksAreBest(cs: seq<Chunk>)
    ensures |TopChunks(cs)| == Min(ChunksPerDocument, |cs|)
    ensures BestOf(TopChunks(cs), cs, Similarity)
  {
    PrefixIsBest(cs, Similarity, Min(ChunksPerDocument, |cs|));
  }


  /**
   * A section presents one file that some hit names: the type of the file's
   * first hit (underscores as spaces, title-cased), the best similarity over
   * all of the file's chunks, and the top chunks among all of them.
   */
  lemma SectionOfFile(hits: seq<Hit>, k: nat)
    requires k < |Sections(hits)|
    ensures var s := Sections(hits)[k];
      var all := ChunksNamed(hits, s.filename);
      && FirstIndex(hits, s.filename) < |hits|
      && s.typeLabel == DisplayType(hits[FirstIndex(hits, s.filename)].documentType)
      && |all| > 0
      && s.relevance == MaxSimilarity(all)
      && s.shown == TopChunks(all)
  {
    var i := RankedGroupIn(hits, k);
    var g := GroupsOf(hits)[i];
    SectionIsRanked(hits, k);
    GroupOfFile(hits, i);
    ChunksNamedPresent(hits, g.filename);
  }

  /** A section's relevance is the similarity of one of its file's chunks, and none is higher. */
  lemma SectionRelevance(hits: seq<Hit>, k: nat)
    requires k < |Sections(hits)|
    ensures var s := Sections(hits)[k];
      var all := ChunksNamed(hits, s.filename);
      && (exists i :: 0 <= i < |all| && all[i].similarity == s.relevance)
      && (forall i :: 0 <= i < |all| ==> all[i].similarity <= s.relevance)
  {
    SectionOfFile(hits, k);
    MaxSimilarityIsMax(ChunksNamed(hits, Sections(hits)[k].filename));
  }

  /** A section shows at most three of its own file's chunks: the most similar, best first. */
  lemma SectionShown(hits: seq<Hit>, k: nat)
    requires k < |Sections(hits)|
    ensures var s := Sections(hits)[k];
      var all := ChunksNamed(hits, s.filename);
      && |s.shown| == Min(ChunksPerDocument, |all|)
      && BestOf(s.shown, all, Similarity)
  {
    SectionOfFile(hits, k);
    TopChunksAreBest(ChunksNamed(hits, Sections(hits)[k].filename));
  }

  /** A file's chunk lines: three per shown chunk, chunk `i` at lines `3i` to `3i + 2`. */
  lemma ChunkLinesLayout(cs: seq<Chunk>, i: nat)
    requires i < |cs|
    ensures |FlatMap(cs, ChunkBlock)| == 3 * |cs|
    ensures |FlatMap(cs[..i], ChunkBlock)| == 3 * i
    ensures FlatMap(cs, ChunkBlock) ==
      FlatMap(cs[..i], ChunkBlock) + [ChunkHeading(cs[i]), cs[i].content + "\n", Rule] +
      FlatMap(cs[i + 1..], ChunkBlock)
  {
    FlatMapLength(cs, ChunkBlock, 3);
    FlatMapLength(cs[..i], ChunkBlock, 3);
    FlatMapSplit(cs, ChunkBlock, i);
  }

  /**
   * The report is the header, then each file's block in rank order: every line
   * of file k's block comes after all of file k-1's and before all of file k+1's.
   */
  lemma ReportLayout(hits: seq<Hit>, query: string, k: nat)
    requires k < |Sections(hits)|
    ensures var ss := Sections(hits);
      ReportLines(hits, query) ==
        HeaderLines(query, |hits|, |Filenames(hits)|) +
        (FlatMap(ss[..k], SectionLines) + SectionLines(ss[k]) + FlatMap(ss[k + 1..], SectionLines))
  {
    GroupCount(hits);
    FlatMapSplit(Sections(hits), SectionLines, k);
  }
}
