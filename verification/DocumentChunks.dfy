/** Splitting extracted document text into pages and overlapping chunks. */
module DocumentChunks {
  import opened Options

  const PAGE_SEPARATOR: char := '\U{0C}'
  const MAX_CHUNK: nat := 2_000
  const OVERLAP: nat := 200
  const STEP: nat := 1_800
  const MAX_DOCUMENT_CHUNKS: nat := 200
  const MAX_DOCUMENT_PAGES: nat := 100
  const MAX_DOCUMENT_TEXT: nat := 200_000

  // -------------------------------------------------------------------- pages

  /** The parts between separators; `part` is the part read so far. */
  function SplitFrom(text: string, part: string): seq<string> {
    if text == [] then [part]
    else if text[0] == PAGE_SEPARATOR then [part] + SplitFrom(text[1..], [])
    else SplitFrom(text[1..], part + [text[0]])
  }

  function Split(text: string): seq<string> {
    SplitFrom(text, [])
  }

  function Join(pages: seq<string>): string {
    if pages == [] then []
    else if |pages| == 1 then pages[0]
    else pages[0] + [PAGE_SEPARATOR] + Join(pages[1..])
  }

  function PageTexts(text: string, pageCount: nat): Option<seq<string>> {
    if pageCount == 1 then Some([text])
    else
      var pages := Split(text);
      if |pages| != pageCount then None else Some(pages)
  }

  function Separators(text: string): nat {
    if text == [] then 0 else (if text[0] == PAGE_SEPARATOR then 1 else 0) + Separators(text[1..])
  }

  function TotalSeparators(pages: seq<string>): nat {
    if pages == [] then 0 else Separators(pages[0]) + TotalSeparators(pages[1..])
  }

  lemma {:induction false} SeparatorsConcat(a: string, b: string)
    ensures Separators(a + b) == Separators(a) + Separators(b)
  {
    if a == [] {
      assert a + b == b;
    } else {
      assert (a + b)[1..] == a[1..] + b;
      SeparatorsConcat(a[1..], b);
    }
  }

  lemma {:induction false} SplitCounts(text: string, part: string)
    ensures |SplitFrom(text, part)| == 1 + Separators(text)
  {
    if text != [] {
      SplitCounts(text[1..], if text[0] == PAGE_SEPARATOR then [] else part + [text[0]]);
    }
  }

  lemma {:induction false} JoinSeparators(pages: seq<string>)
    requires pages != []
    ensures Separators(Join(pages)) == |pages| - 1 + TotalSeparators(pages)
  {
    if |pages| == 1 {
      assert TotalSeparators(pages[1..]) == 0;
    } else {
      JoinSeparators(pages[1..]);
      SeparatorsConcat(pages[0] + [PAGE_SEPARATOR], Join(pages[1..]));
      SeparatorsConcat(pages[0], [PAGE_SEPARATOR]);
      assert Separators([PAGE_SEPARATOR]) == 1;
    }
  }

  lemma {:induction false} SplitReadsPart(part: string, rest: string, before: string)
    requires Separators(part) == 0
    ensures SplitFrom(part + rest, before) == SplitFrom(rest, before + part)
  {
    if part == [] {
      assert part + rest == rest && before + part == before;
    } else {
      assert (part + rest)[1..] == part[1..] + rest;
      SplitReadsPart(part[1..], rest, before + [part[0]]);
      assert before + [part[0]] + part[1..] == before + part;
    }
  }

  /** The first page is read up to the separator that follows it. */
  lemma SplitFirstPage(page: string, rest: string)
    requires Separators(page) == 0
    ensures Split(page + ([PAGE_SEPARATOR] + rest)) == [page] + Split(rest)
  {
    SplitReadsPart(page, [PAGE_SEPARATOR] + rest, []);
    assert ([PAGE_SEPARATOR] + rest)[1..] == rest;
    assert [] + page == page;
  }

  /** Splitting undoes joining for pages without form feeds. */
  lemma {:induction false} SplitUndoesJoin(pages: seq<string>)
    requires pages != [] && TotalSeparators(pages) == 0
    ensures Split(Join(pages)) == pages
  {
    if |pages| == 1 {
      SplitOnePage(pages[0]);
    } else {
      SplitUndoesJoin(pages[1..]);
      SplitFirstPage(pages[0], Join(pages[1..]));
      JoinSplitsOff(pages);
      assert [pages[0]] + pages[1..] == pages;
    }
  }

  lemma SplitOnePage(page: string)
    requires Separators(page) == 0
    ensures Split(page) == [page]
  {
    SplitReadsPart(page, [], []);
    assert page + [] == page;
    assert [] + page == page;
  }

  lemma JoinSplitsOff(pages: seq<string>)
    requires |pages| > 1
    ensures Join(pages) == pages[0] + ([PAGE_SEPARATOR] + Join(pages[1..]))
  {
  }

  /** Joining undoes splitting for every text. */
  lemma {:induction false} JoinUndoesSplit(text: string, part: string)
    ensures Join(SplitFrom(text, part)) == part + text
  {
    if text == [] {
      assert part + text == part;
    } else {
      FirstCharacterMoves(part, text);
      if text[0] == PAGE_SEPARATOR {
        JoinUndoesSplit(text[1..], []);
        SplitCounts(text[1..], []);
        JoinFirst(part, SplitFrom(text[1..], []));
        NothingBefore(text[1..]);
      } else {
        JoinUndoesSplit(text[1..], part + [text[0]]);
      }
    }
  }

  lemma FirstCharacterMoves(part: string, text: string)
    requires text != []
    ensures part + [text[0]] + text[1..] == part + text
  {
  }

  lemma NothingBefore(text: string)
    ensures [] + text == text
  {
  }

  lemma JoinFirst(part: string, rest: seq<string>)
    requires rest != []
    ensures Join([part] + rest) == part + [PAGE_SEPARATOR] + Join(rest)
  {
    assert ([part] + rest)[1..] == rest;
  }

  /** The pages of a stored document come back exactly when none of them contains a form feed, or
      when there is only one. */
  lemma PagesComeBackExactly(pages: seq<string>)
    requires pages != []
    ensures PageTexts(Join(pages), |pages|) == Some(pages) <==> |pages| == 1 || TotalSeparators(pages) == 0
    ensures PageTexts(Join(pages), |pages|).None? <==> |pages| > 1 && TotalSeparators(pages) > 0
  {
    if |pages| == 1 {
      assert [Join(pages)] == pages;
    } else {
      SplitCounts(Join(pages), []);
      JoinSeparators(pages);
      if TotalSeparators(pages) == 0 {
        SplitUndoesJoin(pages);
      }
    }
  }

  // ------------------------------------------------------------------- chunks

  function Slice(page: string, start: nat): string
    requires start <= |page|
  {
    if start + MAX_CHUNK <= |page| then page[start..start + MAX_CHUNK] else page[start..]
  }

  function ChunksFrom(page: string, start: nat): seq<string>
    requires start < |page|
    decreases |page| - start
  {
    if start + MAX_CHUNK >= |page| then [Slice(page, start)]
    else [Slice(page, start)] + ChunksFrom(page, start + STEP)
  }

  /** The chunks of one page; an empty page has none. */
  function PageChunks(page: string): seq<string> {
    if page == [] then [] else ChunksFrom(page, 0)
  }

  /** How many chunks a page of this length has. */
  function ChunkCount(length: nat): nat {
    if length == 0 then 0
    else if length <= MAX_CHUNK then 1
    else 1 + (length - MAX_CHUNK + STEP - 1) / STEP
  }

  /** Glue chunks back together, dropping the overlap of every chunk but the first. */
  function Rebuild(chunks: seq<string>): string {
    if chunks == [] then []
    else Rebuild(chunks[..|chunks| - 1])
         + (if |chunks| == 1 || |chunks[|chunks| - 1]| < OVERLAP then chunks[|chunks| - 1]
            else chunks[|chunks| - 1][OVERLAP..])
  }

  lemma ChunkCountStep(length: nat)
    requires length > MAX_CHUNK
    ensures ChunkCount(length) == 1 + ChunkCount(length - STEP)
  {
    if length - STEP > MAX_CHUNK {
      assert (length - MAX_CHUNK + STEP - 1) / STEP == 1 + (length - STEP - MAX_CHUNK + STEP - 1) / STEP;
    }
  }

  /** Where the i-th chunk of a page starts. */
  function Offset(i: nat): nat {
    1_800 * i
  }

  /** The i-th of the chunks that begin at `start`: its text, and whether it is the last. */
  predicate ChunkAt(page: string, start: nat, chunks: seq<string>, i: nat)
    requires i < |chunks|
  {
    var at := start + Offset(i);
    && at < |page| && chunks[i] == Slice(page, at)
    && (i > 0 ==> at + OVERLAP < |page|)
    && (i == |chunks| - 1 <==> |page| <= at + MAX_CHUNK)
  }

  /** A chunk of the rest of a page is the next chunk of the page. */
  lemma ChunkShifts(page: string, start: nat, rest: seq<string>, first: string, i: nat)
    requires start + MAX_CHUNK < |page| && i < |rest| && ChunkAt(page, start + STEP, rest, i)
    ensures ChunkAt(page, start, [first] + rest, i + 1)
  {
    assert ([first] + rest)[i + 1] == rest[i];
  }

  /** Every chunk by its position, and their number in closed form. */
  lemma {:induction false} ChunksExactly(page: string, start: nat)
    requires start < |page|
    ensures |ChunksFrom(page, start)| == ChunkCount(|page| - start)
    ensures forall i: nat :: i < |ChunksFrom(page, start)| ==> ChunkAt(page, start, ChunksFrom(page, start), i)
    decreases |page| - start
  {
    if start + MAX_CHUNK < |page| {
      ChunksExactly(page, start + STEP);
      ChunkCountStep(|page| - start);
      var chunks, rest := ChunksFrom(page, start), ChunksFrom(page, start + STEP);
      forall i: nat | i < |chunks| ensures ChunkAt(page, start, chunks, i) {
        if i > 0 {
          ChunkShifts(page, start, rest, chunks[0], i - 1);
        }
      }
    }
  }

  /** Where the n-th chunk ends. */
  function End(page: string, n: nat): nat
    requires n > 0
  {
    if Offset(n - 1) + MAX_CHUNK <= |page| then Offset(n - 1) + MAX_CHUNK else |page|
  }

  lemma Glue(page: string, at: nat, end: nat)
    requires at + OVERLAP <= end <= |page|
    ensures page[..at + OVERLAP] + page[at..end][OVERLAP..] == page[..end]
  {
    assert page[at..end][OVERLAP..] == page[at + OVERLAP..end];
  }

  lemma RebuildLast(chunks: seq<string>, n: nat)
    requires 0 < n <= |chunks|
    ensures Rebuild(chunks[..n])
         == Rebuild(chunks[..n - 1])
            + (if n == 1 || |chunks[n - 1]| < OVERLAP then chunks[n - 1] else chunks[n - 1][OVERLAP..])
  {
    assert chunks[..n][..n - 1] == chunks[..n - 1];
  }

  /** The n-th chunk as a stretch of the page. */
  lemma ChunkStretch(page: string, chunks: seq<string>, n: nat)
    requires page != [] && chunks == PageChunks(page) && 0 < n <= |chunks|
    ensures Offset(n - 1) < End(page, n) <= |page|
    ensures chunks[n - 1] == page[Offset(n - 1)..End(page, n)]
    ensures n > 1 ==> End(page, n - 1) == Offset(n - 1) + OVERLAP <= End(page, n)
  {
    ChunksExactly(page, 0);
    assert ChunkAt(page, 0, chunks, n - 1);
    if n > 1 {
      assert ChunkAt(page, 0, chunks, n - 2);
    }
  }

  lemma {:induction false} RebuildPrefix(page: string, chunks: seq<string>, n: nat)
    requires page != [] && chunks == PageChunks(page) && 0 < n <= |chunks|
    ensures Rebuild(chunks[..n]) == page[..End(page, n)]
    decreases n
  {
    ChunkStretch(page, chunks, n);
    RebuildLast(chunks, n);
    if n == 1 {
      assert Rebuild(chunks[..0]) + chunks[0] == chunks[0];
    } else {
      RebuildPrefix(page, chunks, n - 1);
      Glue(page, Offset(n - 1), End(page, n));
    }
  }

  /** Chunk `i` repeats the last 200 characters of the full chunk before it. */
  predicate Overlaps(chunks: seq<string>, i: nat)
    requires 0 < i < |chunks|
  {
    && |chunks[i - 1]| == MAX_CHUNK && |chunks[i]| > OVERLAP
    && chunks[i][..OVERLAP] == chunks[i - 1][STEP..]
  }

  lemma NeighboursOverlap(page: string, chunks: seq<string>, i: nat)
    requires page != [] && chunks == PageChunks(page) && 0 < i < |chunks|
    ensures Overlaps(chunks, i)
  {
    ChunksExactly(page, 0);
    assert ChunkAt(page, 0, chunks, i - 1) && ChunkAt(page, 0, chunks, i);
    assert Offset(i) == Offset(i - 1) + STEP;
    FullSliceEnds(page, Offset(i - 1));
    SliceStarts(page, Offset(i));
  }

  lemma FullSliceEnds(page: string, at: nat)
    requires at + MAX_CHUNK <= |page|
    ensures |Slice(page, at)| == MAX_CHUNK && Slice(page, at)[STEP..] == page[at + STEP..at + MAX_CHUNK]
  {
  }

  lemma SliceStarts(page: string, at: nat)
    requires at + OVERLAP < |page|
    ensures |Slice(page, at)| > OVERLAP && Slice(page, at)[..OVERLAP] == page[at..at + OVERLAP]
  {
  }

  lemma ChunkSizes(page: string, i: nat)
    requires page != [] && i < |PageChunks(page)|
    ensures 1 <= |PageChunks(page)[i]| <= MAX_CHUNK
  {
    ChunksExactly(page, 0);
    assert ChunkAt(page, 0, PageChunks(page), i);
  }

  lemma LastChunkEnds(page: string)
    requires page != []
    ensures PageChunks(page) != [] && End(page, |PageChunks(page)|) == |page|
  {
    ChunksExactly(page, 0);
    assert ChunkAt(page, 0, PageChunks(page), |PageChunks(page)| - 1);
  }

  lemma WholePage(page: string)
    requires page != []
    ensures Rebuild(PageChunks(page)) == page
  {
    var chunks := PageChunks(page);
    LastChunkEnds(page);
    RebuildPrefix(page, chunks, |chunks|);
    assert chunks[..|chunks|] == chunks;
    assert page[..|page|] == page;
  }

  /** Chunking loses nothing: the first chunk, then every later chunk without its first 200
      characters, is the page; the number of chunks has a closed form. */
  lemma ChunksRebuildPage(page: string)
    requires page != []
    ensures Rebuild(PageChunks(page)) == page
    ensures |PageChunks(page)| == ChunkCount(|page|)
    ensures forall i: nat :: i < |PageChunks(page)| ==> 1 <= |PageChunks(page)[i]| <= MAX_CHUNK
    ensures forall i: nat :: 0 < i < |PageChunks(page)| ==> Overlaps(PageChunks(page), i)
  {
    ChunksExactly(page, 0);
    WholePage(page);
    var chunks := PageChunks(page);
    forall i: nat | i < |chunks| ensures 1 <= |chunks[i]| <= MAX_CHUNK {
      ChunkSizes(page, i);
    }
    forall i: nat | 0 < i < |chunks| ensures Overlaps(chunks, i) {
      NeighboursOverlap(page, chunks, i);
    }
  }

  // ----------------------------------------------------------------- document

  datatype Chunk = Chunk(page: nat, ordinal: nat, content: string)

  /** Number the chunks of one page after `first` earlier ones. */
  function Numbered(page: nat, first: nat, contents: seq<string>): seq<Chunk> {
    seq(|contents|, i requires 0 <= i < |contents| => Chunk(page, first + i, contents[i]))
  }

  /** The chunks of the first `n` pages. */
  function DocumentPrefix(pages: seq<string>, n: nat): seq<Chunk>
    requires n <= |pages|
  {
    if n == 0 then []
    else
      var before := DocumentPrefix(pages, n - 1);
      before + Numbered(n, |before|, PageChunks(pages[n - 1]))
  }

  function TotalChunks(pages: seq<string>, n: nat): nat
    requires n <= |pages|
  {
    if n == 0 then 0 else TotalChunks(pages, n - 1) + ChunkCount(|pages[n - 1]|)
  }

  /** The i-th chunk of the document: it is on the page whose chunks have reached that number, and is
      that page's chunk at this place. */
  predicate ChunkOk(pages: seq<string>, c: Chunk, i: nat, n: nat)
    requires n <= |pages|
  {
    && c.ordinal == i && 1 <= c.page <= n && 1 <= |c.content| <= MAX_CHUNK
    && TotalChunks(pages, c.page - 1) <= i < TotalChunks(pages, c.page)
    && i - TotalChunks(pages, c.page - 1) < |PageChunks(pages[c.page - 1])|
    && c.content == PageChunks(pages[c.page - 1])[i - TotalChunks(pages, c.page - 1)]
  }

  lemma PageChunkSizes(page: string)
    ensures |PageChunks(page)| == ChunkCount(|page|)
    ensures forall i :: 0 <= i < |PageChunks(page)| ==> 1 <= |PageChunks(page)[i]| <= MAX_CHUNK
  {
    if page != [] {
      ChunksRebuildPage(page);
    }
  }

  lemma {:induction false} DocumentPrefixFacts(pages: seq<string>, n: nat)
    requires n <= |pages|
    ensures |DocumentPrefix(pages, n)| == TotalChunks(pages, n)
    ensures forall i :: 0 <= i < |DocumentPrefix(pages, n)| ==> ChunkOk(pages, DocumentPrefix(pages, n)[i], i, n)
  {
    if n > 0 {
      DocumentPrefixFacts(pages, n - 1);
      PageChunkSizes(pages[n - 1]);
      var before := DocumentPrefix(pages, n - 1);
      PageIsAppended(pages, before, n);
    }
  }

  lemma PageIsAppended(pages: seq<string>, before: seq<Chunk>, n: nat)
    requires 0 < n <= |pages| && |before| == TotalChunks(pages, n - 1)
    requires forall i :: 0 <= i < |before| ==> ChunkOk(pages, before[i], i, n - 1)
    ensures var after := before + Numbered(n, |before|, PageChunks(pages[n - 1]));
            forall i :: 0 <= i < |after| ==> ChunkOk(pages, after[i], i, n)
  {
    PageChunkSizes(pages[n - 1]);
  }

  /** The chunk carries this page's number exactly if it is one of its chunks, in their order. */
  predicate Placed(pages: seq<string>, c: Chunk, i: nat, page: nat)
    requires 1 <= page <= |pages|
  {
    var first, contents := TotalChunks(pages, page - 1), PageChunks(pages[page - 1]);
    && (c.page == page <==> first <= i < first + |contents|)
    && (c.page == page ==> c.content == contents[i - first])
  }

  /** Nothing of a document is lost or moved: the chunks that carry a page's number, in order, rebuild
      that page. */
  lemma DocumentRebuilds(pages: seq<string>, page: nat)
    requires 1 <= page <= |pages| && pages[page - 1] != []
    ensures Rebuild(PageChunks(pages[page - 1])) == pages[page - 1]
    ensures var chunks := DocumentPrefix(pages, |pages|);
            forall i :: 0 <= i < |chunks| ==> Placed(pages, chunks[i], i, page)
  {
    ChunksRebuildPage(pages[page - 1]);
    DocumentPrefixFacts(pages, |pages|);
    var chunks := DocumentPrefix(pages, |pages|);
    forall i | 0 <= i < |chunks| ensures Placed(pages, chunks[i], i, page) {
      PlacedOnce(pages, chunks[i], i, page);
    }
  }

  lemma PlacedOnce(pages: seq<string>, c: Chunk, i: nat, page: nat)
    requires 1 <= page <= |pages| && ChunkOk(pages, c, i, |pages|)
    ensures Placed(pages, c, i, page)
  {
    PageChunkSizes(pages[page - 1]);
    if c.page < page {
      TotalGrows(pages, c.page, page - 1);
    } else if page < c.page {
      TotalGrows(pages, page, c.page - 1);
    }
  }

  lemma {:induction false} TotalGrows(pages: seq<string>, n: nat, m: nat)
    requires n <= m <= |pages|
    ensures TotalChunks(pages, n) <= TotalChunks(pages, m)
    decreases m
  {
    if n < m {
      TotalGrows(pages, n, m - 1);
    }
  }

  /** Chunk a document; it is refused exactly when its pages do not come back, or when it has no
      chunk or more than the maximum. */
  method ChunkDocumentText(text: string, pageCount: nat) returns (result: Option<seq<Chunk>>)
    ensures result.Some? <==>
              && PageTexts(text, pageCount).Some?
              && var pages := PageTexts(text, pageCount).value;
                 1 <= TotalChunks(pages, |pages|) <= MAX_DOCUMENT_CHUNKS
    ensures result.Some? ==>
              var pages := PageTexts(text, pageCount).value;
              result.value == DocumentPrefix(pages, |pages|)
  {
    var split := PageTexts(text, pageCount);
    if split.None? {
      return None;
    }
    result := ChunkPages(split.value);
  }

  lemma PrefixLength(pages: seq<string>, n: nat)
    requires n <= |pages|
    ensures |DocumentPrefix(pages, n)| == TotalChunks(pages, n)
  {
    DocumentPrefixFacts(pages, n);
  }

  /** What the next page adds to the document. */
  lemma PageAdds(pages: seq<string>, n: nat)
    requires n < |pages|
    ensures var before, contents := DocumentPrefix(pages, n), PageChunks(pages[n]);
            && |before| == TotalChunks(pages, n)
            && TotalChunks(pages, n + 1) == |before| + |contents|
            && DocumentPrefix(pages, n + 1) == before + Numbered(n + 1, |before|, contents)
            && (pages[n] == [] ==> DocumentPrefix(pages, n + 1) == before)
  {
    DocumentPrefixFacts(pages, n);
    PageChunkSizes(pages[n]);
  }

  /** The loop over the pages. */
  method ChunkPages(pages: seq<string>) returns (result: Option<seq<Chunk>>)
    ensures result == if 1 <= TotalChunks(pages, |pages|) <= MAX_DOCUMENT_CHUNKS
                      then Some(DocumentPrefix(pages, |pages|)) else None
  {
    var chunks: seq<Chunk> := [];
    var n := 0;
    while n < |pages|
      invariant 0 <= n <= |pages|
      invariant chunks == DocumentPrefix(pages, n)
      invariant TotalChunks(pages, n) <= MAX_DOCUMENT_CHUNKS
    {
      PageAdds(pages, n);
      TotalGrows(pages, n + 1, |pages|);
      var page := pages[n];
      if page != [] {
        var whole;
        chunks, whole := ChunkPage(page, n + 1, chunks);
        if !whole {
          return None;
        }
      }
      n := n + 1;
    }
    PrefixLength(pages, |pages|);
    if chunks == [] {
      return None;
    }
    result := Some(chunks);
  }

  /** The inner loop over one page; it gives up as soon as there are too many chunks. */
  method ChunkPage(page: string, number: nat, before: seq<Chunk>) returns (chunks: seq<Chunk>, whole: bool)
    requires page != [] && |before| <= MAX_DOCUMENT_CHUNKS
    ensures whole <==> |before| + |PageChunks(page)| <= MAX_DOCUMENT_CHUNKS
    ensures whole ==> chunks == before + Numbered(number, |before|, PageChunks(page))
  {
    chunks, whole := before, true;
    ghost var contents: seq<string> := [];
    var start := 0;
    while true
      invariant start < |page|
      invariant chunks == before + Numbered(number, |before|, contents)
      invariant contents + ChunksFrom(page, start) == PageChunks(page)
      invariant |chunks| <= MAX_DOCUMENT_CHUNKS
      decreases |page| - start
    {
      var content := Slice(page, start);
      chunks := chunks + [Chunk(number, |chunks|, content)];
      ghost var rest := if start + MAX_CHUNK >= |page| then [] else ChunksFrom(page, start + STEP);
      assert ChunksFrom(page, start) == [content] + rest;
      contents := contents + [content];
      assert contents + rest == PageChunks(page);
      if |chunks| > MAX_DOCUMENT_CHUNKS {
        return chunks, false;
      }
      if start + MAX_CHUNK >= |page| {
        return;
      }
      start := start + STEP;
    }
  }

  /** One nonempty page within the document limit is never refused. */
  lemma OnePageIsNeverRefused(text: string)
    requires 0 < |text| <= MAX_DOCUMENT_TEXT
    ensures PageTexts(text, 1) == Some([text])
    ensures 1 <= TotalChunks([text], 1) <= MAX_DOCUMENT_CHUNKS
  {
    assert TotalChunks([text], 1) == ChunkCount(|text|);
  }

  /** Several pages can be: within the upload limits of 100 pages and 200,000 characters, 99 pages
      of one character and one page of 199,000 need 210 chunks. */
  lemma AcceptedDocumentCanBeRefused(pages: seq<string>)
    requires |pages| == MAX_DOCUMENT_PAGES
    requires forall i :: 0 <= i < 99 ==> |pages[i]| == 1
    requires |pages[99]| == 199_000
    ensures |Join(pages)| <= MAX_DOCUMENT_TEXT
    ensures TotalChunks(pages, |pages|) == 210 > MAX_DOCUMENT_CHUNKS
  {
    OneChunkEach(pages, 99);
    JoinLength(pages, 99);
  }

  lemma {:induction false} OneChunkEach(pages: seq<string>, n: nat)
    requires n <= |pages| && forall i :: 0 <= i < n ==> |pages[i]| == 1
    ensures TotalChunks(pages, n) == n
  {
    if n > 0 {
      OneChunkEach(pages, n - 1);
    }
  }

  lemma {:induction false} JoinLength(pages: seq<string>, n: nat)
    requires |pages| == n + 1 && forall i :: 0 <= i < n ==> |pages[i]| == 1
    ensures |Join(pages)| == 2 * n + |pages[n]|
  {
    if n > 0 {
      JoinLength(pages[1..], n - 1);
    }
  }
}
