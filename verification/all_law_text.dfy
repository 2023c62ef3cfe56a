/**
 * script/get_all_law_text.py: the name lookup of `_parse_search_results`,
 * which raises instead of reporting a status, `parse_reg_content` (the
 * shared fold with the cap off) and `build_output_json`.
 */
module AllLawText {
  import opened Wrappers
  import opened Text
  import opened Seqs
  import opened Structure
  import opened Search

  /** The two failures `_parse_search_results` raises. */
  datatype LookupError =
    | Ambiguous(candidates: seq<LawRow>)  // several rows, none named exactly: the first 10 are listed
    | NoResults

  /**
   * `_parse_search_results`: the first row named like the stripped keyword,
   * else the only row; several rows without an exact name, or none, fail.
   */
  function ParseSearchResults(anchors: seq<Anchor>, keyword: string): (r: Result<LawRow, LookupError>)
    ensures var rows := SearchRows(anchors);
            (r.Ok? <==> HasExact(rows, Strip(keyword)) || |rows| == 1) &&
            (r.Ok? ==> r.value in rows) &&
            (r.Ok? && HasExact(rows, Strip(keyword)) ==> r.value.name == Strip(keyword)) &&
            (r.Err? && r.error.Ambiguous? <==> !HasExact(rows, Strip(keyword)) && |rows| > 1) &&
            (r.Err? && r.error.Ambiguous? ==> r.error.candidates == PyHead(rows, 10)) &&
            (r.Err? && r.error.NoResults? <==> rows == [])
  {
    var rows := SearchRows(anchors);
    var exact := FirstNamed(rows, Strip(keyword));
    if exact.Some? then Ok(exact.value)
    else if |rows| == 1 then Ok(rows[0])
    else if rows != [] then Err(Ambiguous(PyHead(rows, 10)))
    else Err(NoResults)
  }

  /**
   * The script's lookup agrees with `search_law_by_name` of the package: it
   * returns the row that search reports as exact or single match, and
   * fails with the candidates a 10-suggestion search lists, or on no match.
   */
  lemma ParseSearchResultsAgrees(anchors: seq<Anchor>, keyword: string)
    ensures var r := ParseSearchResults(anchors, keyword);
            var o := ChooseStatus(SearchRows(anchors), keyword, 10);
            (r.Ok? <==> o.result.Some?) &&
            (r.Ok? ==> o.result == Some(r.value)) &&
            (r.Err? && r.error.Ambiguous? <==> o.status == MultipleMatches) &&
            (r.Err? && r.error.Ambiguous? ==> r.error.candidates == o.suggestions) &&
            (r.Err? && r.error.NoResults? <==> o.status == NoMatch)
  {
  }

  /** `parse_reg_content`: the fold with neither cap nor summary mode; a missing container fails. */
  method ParseRegContent(root: Option<seq<Block>>) returns (r: Result<Parsed, string>)
    ensures r.Err? <==> root.None?
    ensures r.Ok? ==> r.value.meta.None? &&
                      Flatten(r.value.chapters) == r.value.flat &&
                      TitlesOk(r.value.chapters) &&
                      Cores(r.value.flat) == RowCores(root.value, false)
  {
    r := Structure.ParseLawContent(root, false, 0);
    if root.Some? {
      ParseContentSpec(root.value, false, 0);
    }
  }

  /** The JSON document the script writes. */
  datatype LawJson = LawJson(name: Option<string>, pcode: Option<string>, url: Option<string>,
                             articles: seq<Article>, structure: seq<Chapter>)

  /** `build_output_json`: the flat list as `articles`, the tree as `structure`. */
  function BuildOutputJson(name: Option<string>, pcode: Option<string>, url: Option<string>, parsed: Parsed): (j: LawJson)
    ensures j.name == name && j.pcode == pcode && j.url == url
    ensures j.articles == parsed.flat && j.structure == parsed.chapters
  {
    LawJson(name, pcode, url, parsed.flat, parsed.chapters)
  }

  /**
   * In the written document, `structure` flattened is exactly `articles`,
   * which lists every accepted row of the page in order.
   */
  lemma OutputJsonConsistent(bs: seq<Block>, name: Option<string>, pcode: Option<string>, url: Option<string>)
    ensures var j := BuildOutputJson(name, pcode, url, ParseContent(Some(bs), false, 0).value);
            Flatten(j.structure) == j.articles && TitlesOk(j.structure) &&
            Cores(j.articles) == RowCores(bs, false)
  {
    ParseContentSpec(bs, false, 0);
  }
}
