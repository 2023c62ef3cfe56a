/**
 * mcp_server_simple.py: the copy without a cap or summary mode. Its
 * `parse_law_content` is the shared fold with the cap off, its
 * `search_law_by_name` keeps at most 10 suggestions, and its
 * `keyword_search` always reports the full lines and adds no `meta`.
 */
module SimpleServer {
  import opened Wrappers
  import opened Seqs
  import opened Dedup
  import opened Structure
  import opened Search

  /** The uncapped fold: every accepted row is read, in order, and no `meta` is produced. */
  method ParseLawContent(root: Option<seq<Block>>) returns (r: Result<Parsed, string>)
    ensures r.Err? <==> root.None?
    ensures r.Ok? ==> r.value.meta.None? &&
                      Flatten(r.value.chapters) == r.value.flat &&
                      TitlesOk(r.value.chapters) &&
                      Cores(r.value.flat) == RowCores(root.value, false)
  {
    r := Structure.ParseLawContent(root, false, 0);
    if root.Some? {
      ParseContentSpec(root.value, false, 0);
    }
  }

  /** `search_law_by_name` with the suggestion list cut to 10. */
  function SearchLawByName(listing: Result<seq<Anchor>, string>, keyword: string): (r: Result<SearchOutcome, string>)
    ensures r.Err? <==> listing.Err?
    ensures r.Ok? ==> |r.value.suggestions| <= 10
    ensures r.Ok? && r.value.status == MultipleMatches ==>
              var rows := SearchRows(listing.value);
              r.value.suggestions == rows[..if |rows| < 10 then |rows| else 10]
  {
    assert listing.Ok? ==>
      Search.SearchLawByName(listing, keyword, 10) == Ok(ChooseStatus(SearchRows(listing.value), keyword, 10));
    Search.SearchLawByName(listing, keyword, 10)
  }

  /** The reply of this copy's `keyword_search`. */
  datatype SimpleReport = SimpleReport(keyword: string, count: nat, results: seq<KeywordHit>)

  /**
   * `keyword_search`: the shared listing, deduplication and examination,
   * always with the full lines.
   */
  method KeywordSearch(keyword: string, listing: Result<seq<Anchor>, string>,
                       fetch: string -> Result<LawPage, string>, lower: string -> string, maxResults: int)
    returns (r: Result<SimpleReport, string>)
    ensures listing.Err? ==> r == Err(listing.error)
    ensures listing.Ok? ==> r.Ok? && r.value.results == Hits(ExaminedLaws(listing.value, maxResults), fetch, keyword, lower, false)
    ensures r.Ok? ==> r.value.count == |r.value.results| &&
                      NoDupKeys(r.value.results, HitKey) &&
                      (maxResults >= 0 ==> r.value.count <= maxResults) &&
                      forall h :: h in r.value.results ==> h.lines.Some? && h.matchedLines != []
  {
    var report := Search.KeywordSearch(keyword, listing, fetch, lower, maxResults, false);
    if report.Err? {
      return Err(report.error);
    }
    KeywordSearchSpec(keyword, listing.value, fetch, lower, maxResults, false);
    r := Ok(SimpleReport(keyword, report.value.count, report.value.results));
  }
}
