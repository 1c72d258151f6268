/**
 * The result serialisers of `tools/search.py`. Each tool formats the
 * records its loader returned as `<Document .../>` blocks, joins them with
 * a `---` separator and returns the text under one dictionary key.
 */
module SearchTools {
  import opened Wrappers
  import opened Text

  const Separator: string := "\n\n---\n\n"
  const CloseTag: string := "\n</Document>"

  /** How many characters of an arXiv page go into its block. */
  const ArxivLimit: nat := 1000

  /** A page from the Wikipedia or arXiv loader; metadata values are given as their `str()` text. */
  datatype Document = Document(metadata: map<string, string>, pageContent: string)

  /** A Tavily result dictionary; values are given as their `str()` text. */
  type WebResult = map<string, string>

  /** `doc.metadata["source"]` on a page without a source. */
  datatype SearchError = KeyError(key: string)

  /** Python's `d.get(key, default)`. */
  function Get(d: map<string, string>, key: string, default: string): string {
    if key in d then d[key] else default
  }

  /** Python's `s[:n]`. */
  function Truncate(s: string, n: nat): (r: string)
    ensures |r| == if |s| <= n then |s| else n
    ensures r == s[..|r|]
  {
    if |s| <= n then s else s[..n]
  }

  /** The opening tag of a Wikipedia or arXiv block. */
  function PageTag(source: string, page: string): string {
    "<Document source=\"" + source + "\" page=\"" + page + "\"/>"
  }

  /** The opening tag of a web block: the title is not quoted. */
  function WebTag(url: string, title: string, score: string): string {
    "<Document source=\"" + url + "\" title=" + title + " score=\"" + score + "\"/>"
  }

  /** One block: the opening tag, the content on its own line, the closing tag. */
  function Block(tag: string, content: string): string {
    tag + "\n" + content + CloseTag
  }

  /** A block can be read back: it starts with its tag, ends with the closing tag, and holds the content in between. */
  lemma BlockParts(tag: string, content: string)
    ensures StartsWith(Block(tag, content), tag)
    ensures EndsWith(Block(tag, content), CloseTag)
    ensures |Block(tag, content)| == |tag| + 1 + |content| + |CloseTag|
    ensures Block(tag, content)[|tag| + 1..|tag| + 1 + |content|] == content
  {
    var b := Block(tag, content);
    assert b[..|tag|] == tag;
    assert b[|b| - |CloseTag|..] == CloseTag;
  }

  /** The block of one page; `limit` is the content truncation (arXiv) or `None` (Wikipedia). */
  function PageBlock(d: Document, limit: Option<nat>): (r: Result<string, SearchError>)
    ensures r.Err? <==> "source" !in d.metadata
    ensures r.Err? ==> r.error == KeyError("source")
  {
    if "source" !in d.metadata then Err(KeyError("source"))
    else
      var content := if limit.Some? then Truncate(d.pageContent, limit.value) else d.pageContent;
      Ok(Block(PageTag(d.metadata["source"], Get(d.metadata, "page", "")), content))
  }

  /** The list comprehension over the loaded pages: the first page without a source raises. */
  function PageBlocks(docs: seq<Document>, limit: Option<nat>): (r: Result<seq<string>, SearchError>)
    ensures r.Err? <==> exists i :: 0 <= i < |docs| && "source" !in docs[i].metadata
    ensures r.Err? ==> r.error == KeyError("source")
    ensures r.Ok? ==> |r.value| == |docs|
    ensures r.Ok? ==> forall i :: 0 <= i < |docs| ==> PageBlock(docs[i], limit) == Ok(r.value[i])
  {
    if docs == [] then Ok([])
    else
      match PageBlock(docs[0], limit)
      case Err(e) => Err(e)
      case Ok(b) =>
        match PageBlocks(docs[1..], limit)
        case Err(e) => assert docs[1..] == docs[1..]; Err(e)
        case Ok(bs) => Ok([b] + bs)
  }

  /** `wiki_search`, from the pages the Wikipedia loader returned. */
  function WikiSearch(docs: seq<Document>): (r: Result<map<string, string>, SearchError>)
    ensures r.Err? <==> exists i :: 0 <= i < |docs| && "source" !in docs[i].metadata
    ensures r.Ok? ==> r.value.Keys == {"wiki_results"}
    ensures r.Ok? ==> r.value["wiki_results"] == Join(Separator, PageBlocks(docs, None).value)
    ensures docs == [] ==> r == Ok(map["wiki_results" := ""])
  {
    match PageBlocks(docs, None)
    case Err(e) => Err(e)
    case Ok(blocks) => Ok(map["wiki_results" := Join(Separator, blocks)])
  }

  /** `arxiv_search`, from the pages the arXiv loader returned. */
  function ArxivSearch(docs: seq<Document>): (r: Result<map<string, string>, SearchError>)
    ensures r.Err? <==> exists i :: 0 <= i < |docs| && "source" !in docs[i].metadata
    ensures r.Ok? ==> r.value.Keys == {"arxiv_results"}
    ensures r.Ok? ==> r.value["arxiv_results"] == Join(Separator, PageBlocks(docs, Some(ArxivLimit)).value)
    ensures docs == [] ==> r == Ok(map["arxiv_results" := ""])
  {
    match PageBlocks(docs, Some(ArxivLimit))
    case Err(e) => Err(e)
    case Ok(blocks) => Ok(map["arxiv_results" := Join(Separator, blocks)])
  }

  /** The block of one Tavily result; every field has a default, so nothing raises. */
  function WebBlock(d: WebResult): (r: string)
    ensures r == "<Document source=\"" + Get(d, "url", "") + "\" title=" + Get(d, " title", "")
      + " score=\"" + Get(d, "score", "0.0") + "\"/>\n" + Get(d, "content", "") + "\n</Document>"
  {
    Block(WebTag(Get(d, "url", ""), Get(d, " title", ""), Get(d, "score", "0.0")), Get(d, "content", ""))
  }

  /** The list comprehension over the Tavily results: one block per result, in order. */
  function WebBlocks(results: seq<WebResult>): (r: seq<string>)
    ensures |r| == |results|
    ensures forall i :: 0 <= i < |results| ==> r[i] == WebBlock(results[i])
  {
    seq(|results|, i requires 0 <= i < |results| => WebBlock(results[i]))
  }

  /** `web_search`, from the results Tavily returned. */
  function WebSearch(results: seq<WebResult>): (r: map<string, string>)
    ensures r.Keys == {"web_results"}
    ensures r["web_results"] == Join(Separator, WebBlocks(results))
    ensures results == [] ==> r["web_results"] == ""
  {
    map["web_results" := Join(Separator, WebBlocks(results))]
  }

  /**
   * How the blocks sit in the joined text: block `i` starts at its join
   * offset, and every block but the first has the separator just before it.
   */
  predicate Layout(text: string, blocks: seq<string>) {
    && (forall i :: 0 <= i < |blocks| ==>
          JoinOffset(Separator, blocks, i) + |blocks[i]| <= |text| &&
          text[JoinOffset(Separator, blocks, i)..JoinOffset(Separator, blocks, i) + |blocks[i]|] == blocks[i])
    && (forall i :: 0 < i < |blocks| ==>
          |Separator| <= JoinOffset(Separator, blocks, i) <= |text| &&
          text[JoinOffset(Separator, blocks, i) - |Separator|..JoinOffset(Separator, blocks, i)] == Separator)
    && (blocks != [] ==> StartsWith(text, blocks[0]) && EndsWith(text, blocks[|blocks| - 1]))
  }

  /** Joining with the separator lays the blocks out in order. */
  lemma JoinedLayout(blocks: seq<string>)
    ensures Layout(Join(Separator, blocks), blocks)
  {
    JoinPieces(Separator, blocks);
    JoinSeparators(Separator, blocks);
    if blocks != [] {
      JoinEnds(Separator, blocks);
    }
  }

  /** A Wikipedia block shows the source, the page (empty when absent) and the full content. */
  lemma WikiBlockLayout(d: Document)
    requires "source" in d.metadata
    ensures var page := if "page" in d.metadata then d.metadata["page"] else "";
      PageBlock(d, None) == Ok("<Document source=\"" + d.metadata["source"] + "\" page=\"" + page + "\"/>\n"
        + d.pageContent + "\n</Document>")
  {
    var page := if "page" in d.metadata then d.metadata["page"] else "";
    assert Get(d.metadata, "page", "") == page;
    assert PageTag(d.metadata["source"], page) + "\n" == "<Document source=\"" + d.metadata["source"] + "\" page=\"" + page + "\"/>\n";
  }

  /** An arXiv block holds the first `min(1000, n)` characters of the content, which is all of it up to 1000. */
  lemma ArxivTruncation(d: Document)
    requires "source" in d.metadata
    ensures var tag := PageTag(d.metadata["source"], Get(d.metadata, "page", ""));
      && (|d.pageContent| <= ArxivLimit ==> PageBlock(d, Some(ArxivLimit)) == PageBlock(d, None))
      && (|d.pageContent| > ArxivLimit ==>
            PageBlock(d, Some(ArxivLimit)) == Ok(Block(tag, d.pageContent[..ArxivLimit])))
  {
  }

  /** The Wikipedia text holds the pages' blocks in loader order, separated by `---` lines. */
  lemma WikiLayout(docs: seq<Document>, blocks: seq<string>)
    requires PageBlocks(docs, None) == Ok(blocks)
    ensures WikiSearch(docs).Ok? && Layout(WikiSearch(docs).value["wiki_results"], blocks)
  {
    JoinedLayout(blocks);
  }

  /** The arXiv text holds the pages' truncated blocks in loader order, separated by `---` lines. */
  lemma ArxivLayout(docs: seq<Document>, blocks: seq<string>)
    requires PageBlocks(docs, Some(ArxivLimit)) == Ok(blocks)
    ensures ArxivSearch(docs).Ok? && Layout(ArxivSearch(docs).value["arxiv_results"], blocks)
  {
    JoinedLayout(blocks);
  }

  /** The web text holds one block per Tavily result, in result order, separated by `---` lines. */
  lemma WebLayout(results: seq<WebResult>)
    ensures Layout(WebSearch(results)["web_results"], WebBlocks(results))
  {
    JoinedLayout(WebBlocks(results));
  }

  /** The title is read from the key `" title"`; a result that has only `"title"` shows an empty, unquoted title. */
  lemma WebTitleKey(url: string, title: string, content: string)
    ensures WebBlock(map["url" := url, "title" := title, "score" := "0.9", "content" := content])
      == "<Document source=\"" + url + "\" title= score=\"0.9\"/>\n" + content + "\n</Document>"
  {
    var d := map["url" := url, "title" := title, "score" := "0.9", "content" := content];
    assert " title" !in d;
  }

  /** Missing fields of a web result fall back to empty text and a score of `0.0`. */
  lemma WebDefaults(d: WebResult)
    requires "url" !in d && " title" !in d && "score" !in d && "content" !in d
    ensures WebBlock(d) == Block(WebTag("", "", "0.0"), "")
    ensures WebTag("", "", "0.0") == "<Document source=\"\" title= score=\"0.0\"/>"
  {
  }
}
