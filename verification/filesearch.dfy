/**
  The two file-search tools: the mock knowledge-base search of the agents_c1do1 package,
  and the text report built from a vector-store search response.
 */
module FileSearch {
  import opened Wrappers
  import opened Text

  // ---------------------------------------------------------------------------
  // The mock search
  // ---------------------------------------------------------------------------

  /** One canned result: its content and the file it came from (relevance kept as its text). */
  datatype MockResult = MockResult(content: string, source: string, relevance: string)

  const ServicesResult := MockResult(
    "C1DO1 ofrece servicios de consultoría en transformación digital y desarrollo de software a medida.",
    "services_description.txt", "0.92")
  const CatalogResult := MockResult(
    "Los productos principales de C1DO1 incluyen: Plataforma de gestión empresarial, "
    + "Sistema de análisis de datos, y Soluciones de automatización.",
    "product_catalog.txt", "0.85")
  const MockResults := [ServicesResult, CatalogResult]

  predicate AsksProduct(query: string) {
    Contains(Lower(query), "producto") || Contains(Lower(query), "product")
  }

  predicate AsksService(query: string) {
    Contains(Lower(query), "servicio") || Contains(Lower(query), "service")
  }

  /** `s` is `t` with some elements left out, order kept. */
  predicate SubsequenceOf<T(==)>(s: seq<T>, t: seq<T>)
    decreases |t|
  {
    |s| == 0 || (|t| > 0 && (if s[0] == t[0] then SubsequenceOf(s[1..], t[1..]) else SubsequenceOf(s, t[1..])))
  }

  /**
    The mock `file_search`: a product question gets the catalog, otherwise a service
    question gets the services description, otherwise both come back in list order. The
    store id only appears in a log line.
   */
  function MockSearch(query: string, storeId: string): (r: seq<MockResult>)
    ensures |r| > 0 && SubsequenceOf(r, MockResults)
    ensures AsksProduct(query) ==> r == [CatalogResult]
    ensures !AsksProduct(query) && AsksService(query) ==> r == [ServicesResult]
    ensures !AsksProduct(query) && !AsksService(query) ==> r == MockResults
  {
    assert SubsequenceOf([CatalogResult], MockResults) by {
      assert MockResults[1..] == [CatalogResult];
      assert [CatalogResult][1..] == [];
    }
    assert SubsequenceOf([ServicesResult], MockResults) by {
      assert [ServicesResult][1..] == [];
    }
    assert SubsequenceOf(MockResults, MockResults) by {
      assert MockResults[1..][1..] == [];
    }
    if Contains(Lower(query), "producto") || Contains(Lower(query), "product") then [CatalogResult]
    else if Contains(Lower(query), "servicio") || Contains(Lower(query), "service") then [ServicesResult]
    else MockResults
  }

  /** "producto" holds "product", so the first test alone decides the product case. */
  lemma ProductoIsProduct(query: string)
    ensures AsksProduct(query) <==> Contains(Lower(query), "product")
  {
    if Contains(Lower(query), "producto") {
      assert "producto" == "" + "product" + "o";
      ContainsTransitive(Lower(query), "product", "", "o");
    }
  }

  /** A question about both products and services is answered with the catalog only. */
  lemma ProductBeatsService(query: string)
    requires Contains(Lower(query), "product") && Contains(Lower(query), "service")
    ensures MockSearch(query, "") == [CatalogResult]
  {
  }

  // ---------------------------------------------------------------------------
  // The search report
  // ---------------------------------------------------------------------------

  /** One hit of a `file_search_call`: the file name and the matched text. */
  datatype Hit = Hit(filename: string, text: string)

  /** One annotation of an output text: its type ("file_citation", ...) and file name. */
  datatype Annotation = Annotation(kind: string, filename: string)

  /** One content part of a message item: its type ("output_text", ...), text and annotations. */
  datatype Part = Part(kind: string, text: string, annotations: seq<Annotation>)

  /**
    One item of the response output. `hits` is `None` when the call carries no
    `search_results` attribute.
   */
  datatype OutputItem =
    | FileSearchCall(hits: Option<seq<Hit>>)
    | Message(parts: seq<Part>)
    | OtherItem(kind: string)

  const DefaultMaxResults := 5
  const ErrorPrefix := "Error searching files: "

  function Header(query: string): string {
    "Document search results for '" + query + "':\n\n"
  }

  /** The entry for the hit shown at position `n` (counting from 1). */
  function HitEntry(n: nat, h: Hit): string {
    Decimal(n) + ". File: " + h.filename + "\n" + "   Content: " + h.text + "\n\n"
  }

  /** The hits of one call, numbered from `n` on. */
  function HitEntries(hits: seq<Hit>, n: nat): (r: string)
    ensures |hits| == 0 <==> r == ""
    decreases |hits|
  {
    if |hits| == 0 then ""
    else
      var e := HitEntry(n, hits[0]);
      assert |e| > 0 by { assert e == Decimal(n) + (". File: " + hits[0].filename + "\n" + "   Content: " + hits[0].text + "\n\n"); }
      e + HitEntries(hits[1..], n + 1)
  }

  /** The lines listing the file citations among the annotations, one per citation. */
  function CitationLines(anns: seq<Annotation>): (r: string)
    ensures r == "" <==> forall k :: 0 <= k < |anns| ==> anns[k].kind != "file_citation"
  {
    if |anns| == 0 then ""
    else
      var rest := CitationLines(anns[1..]);
      assert forall k :: 1 <= k < |anns| ==> anns[k] == anns[1..][k - 1];
      if anns[0].kind == "file_citation" then "- " + anns[0].filename + "\n" + rest else rest
  }

  /** The file names cited by `anns`, in order: the file citations kept, every other kind dropped. */
  function CitedFiles(anns: seq<Annotation>): (r: seq<string>)
    ensures |r| <= |anns|
    ensures |anns| == 1 ==> r == (if anns[0].kind == "file_citation" then [anns[0].filename] else [])
  {
    if |anns| == 0 then []
    else (if anns[0].kind == "file_citation" then [anns[0].filename] else []) + CitedFiles(anns[1..])
  }

  /** The filter works piecewise, so with the one-annotation case it is fully determined. */
  lemma {:induction false} CitedFilesAppend(a: seq<Annotation>, b: seq<Annotation>)
    ensures CitedFiles(a + b) == CitedFiles(a) + CitedFiles(b)
  {
    if |a| == 0 {
      assert a + b == b;
    } else {
      assert (a + b)[1..] == a[1..] + b;
      CitedFilesAppend(a[1..], b);
    }
  }

  /** One `- name` line of the citation list. */
  function CitationLine(filename: string): string {
    "- " + filename + "\n"
  }

  function CitationLinesOf(files: seq<string>): (r: seq<string>)
    ensures |r| == |files| && forall i :: 0 <= i < |r| ==> r[i] == CitationLine(files[i])
  {
    seq(|files|, i requires 0 <= i < |files| => CitationLine(files[i]))
  }

  /** The citation block holds exactly one line per cited file, in order, and nothing else. */
  lemma {:induction false} CitationLinesAreCitedFiles(anns: seq<Annotation>)
    ensures CitationLines(anns) == Concat(CitationLinesOf(CitedFiles(anns)))
  {
    if |anns| > 0 {
      CitationLinesAreCitedFiles(anns[1..]);
      var rest := CitedFiles(anns[1..]);
      if anns[0].kind == "file_citation" {
        var lines := CitationLinesOf([anns[0].filename] + rest);
        assert lines[0] == CitationLine(anns[0].filename);
        assert lines[1..] == CitationLinesOf(rest);
      } else {
        assert CitedFiles(anns) == rest;
      }
    }
  }

  /** The analysis text of one content part, with its citations when it has annotations. */
  function PartText(p: Part): (r: string)
    ensures p.kind != "output_text" ==> r == ""
    ensures p.kind == "output_text" && |p.annotations| == 0 ==> r == "AI Analysis: " + p.text + "\n\n"
    ensures p.kind == "output_text" && |p.annotations| > 0 ==>
      r == "AI Analysis: " + p.text + "\n\n" + "Citations:\n" + CitationLines(p.annotations)
  {
    if p.kind != "output_text" then ""
    else if |p.annotations| > 0 then
      "AI Analysis: " + p.text + "\n\n" + "Citations:\n" + CitationLines(p.annotations)
    else "AI Analysis: " + p.text + "\n\n"
  }

  function PartsText(parts: seq<Part>): string {
    if |parts| == 0 then "" else PartText(parts[0]) + PartsText(parts[1..])
  }

  /** What one output item adds to the report. */
  function ItemText(item: OutputItem): (r: string)
    ensures item.OtherItem? ==> r == ""
    ensures item.FileSearchCall? ==> r == HitEntries(item.hits.GetOr([]), 1)
  {
    match item
    case FileSearchCall(hits) => HitEntries(hits.GetOr([]), 1)
    case Message(parts) => PartsText(parts)
    case OtherItem(_) => ""
  }

  function ItemsText(items: seq<OutputItem>): string {
    if |items| == 0 then "" else ItemText(items[0]) + ItemsText(items[1..])
  }

  /** The report grows item by item: each item's text is added after the earlier ones. */
  lemma {:induction false} ItemsTextAppend(a: seq<OutputItem>, b: seq<OutputItem>)
    ensures ItemsText(a + b) == ItemsText(a) + ItemsText(b)
  {
    if |a| == 0 {
      assert a + b == b;
    } else {
      assert (a + b)[1..] == a[1..] + b;
      ItemsTextAppend(a[1..], b);
    }
  }

  /**
    `perform_file_search` over the response of the search call, or the exception it raised:
    the header and each item's text in order, or the error prefix and the exception text.
   */
  function PerformFileSearch(query: string, response: Result<seq<OutputItem>>): (r: string)
    ensures response.Ok? ==> StartsWith(r, Header(query)) && r[|Header(query)|..] == ItemsText(response.value)
    ensures response.Err? ==> r == ErrorPrefix + response.error
  {
    match response
    case Ok(items) =>
      PrefixOfConcat(Header(query), ItemsText(items));
      Header(query) + ItemsText(items)
    case Err(e) => ErrorPrefix + e
  }

  /** Items that are neither searches nor messages leave the report as a bare header. */
  lemma OtherItemsAddNothing(query: string, items: seq<OutputItem>)
    requires forall k :: 0 <= k < |items| ==> items[k].OtherItem?
    ensures PerformFileSearch(query, Ok(items)) == Header(query)
  {
    OtherItemsEmpty(items);
  }

  lemma {:induction false} OtherItemsEmpty(items: seq<OutputItem>)
    requires forall k :: 0 <= k < |items| ==> items[k].OtherItem?
    ensures ItemsText(items) == ""
  {
    if |items| > 0 {
      OtherItemsEmpty(items[1..]);
    }
  }

  /** Numbering restarts at 1 for each search call: the first hit of any call is entry 1. */
  lemma NumberingRestarts(before: seq<OutputItem>, hits: seq<Hit>)
    requires |hits| > 0
    ensures var items := before + [FileSearchCall(Some(hits))];
            EndsWith(ItemsText(items), HitEntry(1, hits[0]) + HitEntries(hits[1..], 2))
  {
    var call := FileSearchCall(Some(hits));
    ItemsTextAppend(before, [call]);
    assert ItemsText([call]) == ItemText(call) + ItemsText([]);
    SuffixOfConcat(ItemsText(before), HitEntry(1, hits[0]) + HitEntries(hits[1..], 2));
  }

  /** The k-th hit of a call (from 0) is shown under the number k + 1. */
  lemma {:induction false} HitNumbered(hits: seq<Hit>, n: nat, k: nat)
    requires k < |hits|
    ensures Contains(HitEntries(hits, n), HitEntry(n + k, hits[k]))
    decreases k
  {
    var e := HitEntry(n, hits[0]);
    var rest := HitEntries(hits[1..], n + 1);
    assert HitEntries(hits, n) == e + rest;
    if k == 0 {
      ContainsMiddle("", e, rest);
      assert "" + e + rest == e + rest;
    } else {
      HitNumbered(hits[1..], n + 1, k - 1);
      assert hits[1..][k - 1] == hits[k] && n + 1 + (k - 1) == n + k;
      ContainsInSuffix(e, rest, HitEntry(n + k, hits[k]));
    }
  }

  /** The tool entry point: an absent `max_results` means five. */
  function MaxResults(requested: Option<int>): (r: int)
    ensures requested.None? ==> r == DefaultMaxResults
    ensures requested.Some? ==> r == requested.value
  {
    requested.GetOr(DefaultMaxResults)
  }
}
