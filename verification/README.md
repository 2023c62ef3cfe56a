# Taiwan law scraper core, modelled in Dafny

This project models the logic of a scraper and MCP server for the Taiwan
Ministry of Justice law database (law.moj.gov.tw). The network and HTML
layers are inputs to the model. The model covers two components.

**Citation resolver** (`script/get_signal_txt.py`). It covers:

- the Chinese-numeral reader `zh_to_int`;
- article-number normalisation (`normalize_art`);
- the "preceding article" rule (`compute_prev_flno`);
- the paragraph / subparagraph / item pickers (項 / 款 / 目);
- `extract_references`, with its range expansion and first-seen deduplication;
- `fetch_ref_articles`, with its per-reference error entries and its
  item → kuan → mu selection cascade.

**Document structurer.** This is the chapter / section / article fold
of `parse_law_content`. It exists in three copies, in
`src/taiwan_law_mcp/law_client.py`, `mcp_server_optimized.py` and
`mcp_server_simple.py`. `script/get_all_law_text.py` has a fourth copy,
`parse_reg_content`. The four copies differ only in the `max_articles` cap,
`summary_mode` and `meta`. The uncapped copies behave like
`summary_mode = False, max_articles = 0`, so one fold, `Structure`, models
all four. Beside the fold, the model covers:

- law-name search (`_parse_search_results`, `search_law_by_name`,
  `get_law_pcode`);
- the listing, `(pcode, law_name)` deduplication and per-law examination of
  `keyword_search`;
- the script's own lookup and `build_output_json`.

The `law_client.py` and `mcp_server_optimized.py` copies of
`search_law_by_name`, `get_law_pcode`, `keyword_search` and
`parse_law_content` are the same text. `Search` and `Structure` model both.
The table below cites `law_client.py`. The matching spans in
`mcp_server_optimized.py` are:

- `_parse_search_results`: 91-111
- `search_law_by_name`: 113-128
- `get_law_pcode`: 132-140
- `parse_law_content`: 160-260
- `keyword_search`: 324-422

Modules:

| module | role |
|---|---|
| `Wrappers` | `Option` and `Result` |
| `Text` | `str.strip`, `isdigit`, `int()`, `str()`, `s[:n]` |
| `Seqs` | comprehensions: flat-map, filter, take |
| `Dedup` | the `seen`-set filter shared by `extract_references` and `keyword_search` |
| `Numerals` | `zh_to_int` |
| `ArticleIds` | `normalize_art`, `compute_prev_flno` |
| `Pickers` | `pick_*_text` and the two prefix regexes |
| `References` | `extract_references`, with the reference patterns applied in their list order, one step per pattern, including the single-目 step that the code's numbered comments skip |
| `ReferencesAsWritten` | the same function as the code indexes its pattern list (see Findings) |
| `Resolution` | `fetch_ref_articles` |
| `Structure` | the fold |
| `Search` | search and keyword search |
| `SimpleServer` | entry points specific to `mcp_server_simple.py` |
| `AllLawText` | entry points specific to `script/get_all_law_text.py` |

Regular expressions are not executed. Each line of article text is given as
the matches each reference pattern finds in it, in `finditer` order. Each
match carries its named groups and its whole matched text. The two prefix
regexes of the pickers are written out as predicates.

## Model

| member | source | states |
|---|---|---|
| Numerals.ZhValue | script/get_signal_txt.py:46-71 | blank input gives None; a pure ASCII digit string is read as a decimal number |
| Numerals.ZhToInt | script/get_signal_txt.py:53-69 | the `while` loop over the stripped text returns exactly the scan value (a unit adds `(num or 1) * unit` and clears `num`, a digit overwrites `num`, the end adds `num`) |
| Numerals.ZhValueDefinedIff | script/get_signal_txt.py:47-68 | the result is None exactly for blank input and for input, other than a digit string, holding a character outside ZH_DIGITS / ZH_UNITS |
| Numerals.ZhNumeralRoundTrip | script/get_signal_txt.py:43-69 | every conventional numeral for 1..999 (十五, 一百零五, 九百九十九 …) reads back as its value |
| Numerals.ZhValueOfDigits | script/get_signal_txt.py:50-51 | `zh_to_int(str(n)) == n` |
| Numerals.ZhValueTen | script/get_signal_txt.py:64 | 十 is 10: a unit with no digit before it counts once |
| Numerals.ZhValueTwentyThree | script/get_signal_txt.py:59-69 | 二十三 is 23 |
| Numerals.ZhValueRejects | script/get_signal_txt.py:67-68 | a character outside the tables makes the result None |
| ArticleIds.NormalizeArt | script/get_signal_txt.py:73-81 | an input whose stripped form matches `\d+(-\d+)?` is returned stripped; otherwise the result is present exactly when `zh_to_int` succeeds, and every result is of that form |
| ArticleIds.NormalizeArtValue | script/get_signal_txt.py:76-81 | an input that is not already an id but reads as the numeral v normalises to v written in decimal, which `int()` reads back as v |
| ArticleIds.NormalizeArtIdempotent | script/get_signal_txt.py:73-81 | normalising a normalised id changes nothing |
| ArticleIds.NormalizeArtOfNumeral | script/get_signal_txt.py:73-81 | a Chinese numeral 1..999 normalises to its decimal spelling |
| ArticleIds.NormalizeArtEight | script/get_signal_txt.py:80-81 | "八" normalises to "8" |
| ArticleIds.NormalizeArtKeepsHyphenated | script/get_signal_txt.py:78-79 | "16-1" is kept as is |
| ArticleIds.ComputePrevFlno | script/get_signal_txt.py:268-277 | a result is a plain decimal article number without a hyphen |
| ArticleIds.PrevOfPlain | script/get_signal_txt.py:274-275 | article M gives M-1 when M > 1, else M |
| ArticleIds.PrevOfHyphenated | script/get_signal_txt.py:271-273 | "M-N" gives M when N > 0; "M-0" gives M-1 when M > 1, else M |
| ArticleIds.PrevOfNonNumeric | script/get_signal_txt.py:270-277 | every main article number without a digit gives None, because `int()` raises on each part and the `except` returns None |
| ArticleIds.PrevOfUnparsable | script/get_signal_txt.py:276-277 | "" and "abc" give None |
| Pickers.PickItemText | script/get_signal_txt.py:216-226 | a paragraph is found exactly when 1 <= idx <= number of lines |
| Pickers.PickItemTextSpec | script/get_signal_txt.py:220-225 | the idx-th numbered line when there are that many, else the idx-th line |
| Pickers.PickItemAllNumbered | script/get_signal_txt.py:220-222 | when every line is numbered, paragraph idx is line idx |
| Pickers.PickKuanText | script/get_signal_txt.py:228-235 | a subparagraph is found exactly when 1 <= idx <= number of KUAN_PREFIX lines |
| Pickers.PickKuanTextSpec | script/get_signal_txt.py:232-234 | the result is the text of the idx-th line with the subparagraph prefix |
| Pickers.PickMuText | script/get_signal_txt.py:237-244 | an item is found exactly when 1 <= idx <= number of MU_PREFIX lines |
| Pickers.PickMuTextSpec | script/get_signal_txt.py:241-243 | the result is the text of the idx-th line with the item prefix |
| Pickers.KuanNumeralPrefixIff | script/get_signal_txt.py:212 | the numeral-run test used for the prefix equals the regex's reading (a run of numerals, then 、) |
| References.RangeRefs | script/get_signal_txt.py:300-308 | a range yields at most cap + 1 references |
| References.RangeExpansion | script/get_signal_txt.py:304-306 | a range Y..Z within the cap yields Y, Y+1, …, Z of article X at the range's level, in order |
| References.RangeBeyondCap | script/get_signal_txt.py:307-308 | a reversed range, or one wider than the cap (30 for 項, 50 for 款 and 目), yields only Y |
| References.SingleCands | script/get_signal_txt.py:311-315 | a single-level match yields at most one reference |
| References.BareCands | script/get_signal_txt.py:347-354 | a bare-article match whose own text names 項, 款 or 目 yields nothing |
| References.PrevCands | script/get_signal_txt.py:371-386 | 前條 yields nothing when there is no preceding article |
| References.RefCollector.AddRef | script/get_signal_txt.py:289-294 | a reference is appended unless its key was seen, and the seen set stays the set of collected keys |
| References.RefCollector.AddAll | script/get_signal_txt.py:296-386 | feeding a line's candidates extends the first-seen filter over all candidates so far |
| References.ExtractReferences | script/get_signal_txt.py:279-388 | the result is the first-seen filter of all candidates, line by line in pattern order, and no two references share `(kind, flno, item, kuan, mu)` |
| References.ExtractedFirstSeen | script/get_signal_txt.py:286-294 | the result holds exactly one reference per distinct key among the candidates, at its first occurrence, in order |
| References.ExtractedWellFormed | script/get_signal_txt.py:279-388 | each reference sets at most one level; an explicit one names a normalised article with non-zero indexes; a 前條 one names the computed preceding article |
| References.BareNextToParagraph | script/get_signal_txt.py:347-351 | "第五條第一項" yields paragraph 1 of article 5 and also the whole of article 5 |
| References.PrevInPlainArticle | script/get_signal_txt.py:371-386 | 前條 inside article M refers to M-1 (article 1 to itself) |
| ReferencesAsWritten.Step6 | script/get_signal_txt.py:347-369 | as written, a step-6 match is skipped exactly when its text names a level; otherwise the stray group lookup raises |
| ReferencesAsWritten.Step7 | script/get_signal_txt.py:371-386 | as written, a step-7 match yields one unqualified 前條 reference when there is a preceding article |
| ReferencesAsWritten.AsWrittenNeverFails | script/get_signal_txt.py:347-369 | on the matches the single-item pattern can report, the written code never raises |
| ReferencesAsWritten.BareArticleBecomesPrev | script/get_signal_txt.py:371-386 | "第八條" inside article 16 yields 前條 → 15 as written |
| ReferencesAsWritten.BareArticleIntended | script/get_signal_txt.py:346-354 | the same line yields article 8 as intended |
| ReferencesAsWritten.PrevPhraseIgnored | script/get_signal_txt.py:371-386 | "前條" inside article 16 yields nothing as written |
| ReferencesAsWritten.PrevPhraseIntended | script/get_signal_txt.py:371-386 | the same line yields 前條 → 15 as intended |
| ReferencesAsWritten.SingleItemDropped | script/get_signal_txt.py:347-386 | as written, a line holding `第X條第Y目` loses the item match and its `第X條` prefix becomes an unqualified 前條 reference |
| ReferencesAsWritten.SingleItemIntended | script/get_signal_txt.py:259-262 | as intended, the same line yields item Y of article X, then the whole of article X |
| ReferencesAsWritten.ItemOfArticleBecomesPrev | script/get_signal_txt.py:347-386 | "第五條第二目" inside article 16 yields only 前條 → 15 as written |
| ReferencesAsWritten.ItemLineExtracted | script/get_signal_txt.py:279-294 | as intended, such a line in any article yields both references, neither removed by the `seen` filter |
| ReferencesAsWritten.ItemOfArticleIntended | script/get_signal_txt.py:259-262 | the same line yields item 2 of article 5 and article 5 as intended |
| Resolution.Select | script/get_signal_txt.py:404-413 | the level tried is item if its index is truthy; kuan only if the item text is falsy; mu only if both earlier texts are falsy; no level when no index is truthy |
| Resolution.FetchRefArticles | script/get_signal_txt.py:391-432 | one entry per reference of `refs[:max_refs]`, in order, each the resolution of that reference |
| Resolution.ResolveOneShape | script/get_signal_txt.py:395-431 | the entry fails exactly when the fetch fails, naming the requested article and the error; otherwise it carries the fetched number, heading and URL and the reference's indexes, and has the whole article's `lines` exactly when the selected text is falsy |
| Resolution.WholeArticleWithoutIndex | script/get_signal_txt.py:404-425 | a reference without indexes returns the whole article's lines |
| Resolution.ParagraphSelected | script/get_signal_txt.py:404-406 | with non-empty lines, paragraph idx within range is selected at item level |
| Structure.ArticleLines | src/taiwan_law_mcp/law_client.py:293-302 | in summary mode at most one line is kept |
| Structure.ParseContent | src/taiwan_law_mcp/law_client.py:238-338 | a missing container fails; `meta` is present exactly when `summary_mode` or `max_articles > 0`, with `total_parsed` the flat-list length |
| Structure.ParseLawContent | src/taiwan_law_mcp/law_client.py:262-327 | the loop over the children, with its cap check at the head, yields the fold's result |
| Structure.StepBlock | src/taiwan_law_mcp/law_client.py:272-326 | one child read by the loop body changes the chapters, flat list and current section as one step of the fold, and adds one article exactly for an article row |
| Structure.ReadArticleRow | src/taiwan_law_mcp/law_client.py:289-314 | the record of a row: stripped name, number text, collected lines, current chapter and section titles, and `truncated` when summary mode dropped lines |
| Structure.CollectLines | src/taiwan_law_mcp/law_client.py:293-302 | the line loop keeps the non-empty lines, stopping at the second one in summary mode |
| Structure.EnsureSection | src/taiwan_law_mcp/law_client.py:255-260 | a section is added to the current chapter, after creating a chapter "" when there is none |
| Structure.FileArticle | src/taiwan_law_mcp/law_client.py:319-326 | an article goes to the current section, else the current chapter, else a new chapter "" |
| Structure.PlaceFlatten | src/taiwan_law_mcp/law_client.py:316-326 | filing an article adds it once to the tree, at the end of its reading order |
| Structure.StepInv | src/taiwan_law_mcp/law_client.py:272-326 | each child keeps the tree equal to the flat list and every article under the titles it records |
| Structure.RunInv | src/taiwan_law_mcp/law_client.py:264-326 | the whole fold keeps that invariant |
| Structure.TitlesAfterChapter | src/taiwan_law_mcp/law_client.py:273-276 | after a chapter heading the next article records that chapter and no section |
| Structure.TitlesAfterSection | src/taiwan_law_mcp/law_client.py:279-281 | after a section heading the next article records it, under the current chapter or a chapter "" |
| Structure.RunContents | src/taiwan_law_mcp/law_client.py:264-317 | the flat list holds the accepted rows in document order, the first `max_articles` under a positive cap |
| Structure.RunCap | src/taiwan_law_mcp/law_client.py:268-270 | a positive cap bounds the number of articles |
| Structure.RunSummary | src/taiwan_law_mcp/law_client.py:299-302 | in summary mode every article has at most one line |
| Structure.RunSkipsInert | src/taiwan_law_mcp/law_client.py:284-288 | a row lacking its anchor or article box, or any other node, changes nothing |
| Structure.ParseContentSpec | src/taiwan_law_mcp/law_client.py:238-338 | a parse's tree flattens to its flat list; titles are consistent (an article read before any chapter has chapter None and sits in the first chapter, titled ""); cap, order and summary hold |
| Search.SearchRowsWellFormed | src/taiwan_law_mcp/law_client.py:174-185 | every result row has a non-empty pcode from its anchor and that pcode's full-text URL |
| Search.FirstNamed | src/taiwan_law_mcp/law_client.py:187 | the first row named exactly like the stripped keyword, found exactly when one exists |
| Search.ChooseStatus | src/taiwan_law_mcp/law_client.py:199-206 | exact match iff a row has the name; single iff not and one row; multiple iff not and several rows, with the first `max_suggestions` as suggestions; no match iff no rows |
| Search.SearchLawByName | src/taiwan_law_mcp/law_client.py:191-206 | a failed request propagates; a result is one of the rows; at most `max_suggestions` suggestions |
| Search.GetLawPcode | src/taiwan_law_mcp/law_client.py:209-217 | a pcode is returned exactly when the request succeeds with an exact or single match |
| Search.GetLawPcodeChoice | src/taiwan_law_mcp/law_client.py:209-217 | that pcode is the first exact-named row's, else the only row's, and is never empty |
| Search.CollectLinks | src/taiwan_law_mcp/law_client.py:417-425 | the listed laws are the anchors with a truthy `pcode` query parameter, in page order |
| Search.UniqueLaws | src/taiwan_law_mcp/law_client.py:427-434 | the `seen` loop yields the first-seen filter on `(pcode, law_name)` |
| Search.ExaminedLawsSpec | src/taiwan_law_mcp/law_client.py:427-437 | the examined laws are listed laws, none twice, at most `max_results`, and every listed key when the cut does not bite |
| Search.Examine | src/taiwan_law_mcp/law_client.py:438-487 | a report is for a fetched page with an article number, carries that number, lists as matched lines exactly the non-empty lines holding the keyword, under the law's own `(pcode, law_name)`, with the non-empty lines in full exactly when not `summary_only` |
| Search.ExamineReportsIff | src/taiwan_law_mcp/law_client.py:443-466 | a law is reported exactly when its page is fetched, has an article number, and has a non-empty line holding the keyword |
| Search.MatchedIff | src/taiwan_law_mcp/law_client.py:463-466 | the matched lines are non-empty exactly when some non-empty line holds the keyword |
| Search.HitsComplete | src/taiwan_law_mcp/law_client.py:437-487 | every examined law whose examination reports is among the reports |
| Search.HitsSpec | src/taiwan_law_mcp/law_client.py:437-487 | each report belongs to an examined law and no law is reported twice |
| Search.KeywordSearch | src/taiwan_law_mcp/law_client.py:402-500 | a failed listing gives the error; otherwise the examination of the deduplicated, cut list in order, with `count` its length |
| Search.KeywordSearchSpec | src/taiwan_law_mcp/law_client.py:402-500 | at most `max_results` reports, none twice, each for a listed law with a matching line |
| SimpleServer.ParseLawContent | mcp_server_simple.py:137-215 | uncapped fold: no `meta`, tree equal to the flat list, consistent titles, every accepted row in order |
| SimpleServer.SearchLawByName | mcp_server_simple.py:111-126 | at most 10 suggestions, the first 10 rows when several match |
| SimpleServer.KeywordSearch | mcp_server_simple.py:277-362 | a failed listing returns its error; otherwise the reports are exactly the examinations, with full lines, of the deduplicated laws cut to `max_results`, in order; `count` is their number, no law twice, each with its full lines and a matching line |
| AllLawText.ParseSearchResults | script/get_all_law_text.py:88-114 | the exact-named row, else the only row; several rows without an exact name fail with the first 10 as candidates; no rows fail |
| AllLawText.ParseSearchResultsAgrees | script/get_all_law_text.py:106-114 | this lookup returns what `search_law_by_name` reports as exact or single match, and fails where it reports multiple or no match |
| AllLawText.ParseRegContent | script/get_all_law_text.py:135-222 | a missing container fails; otherwise no `meta`, tree equal to the flat list, consistent titles, every accepted row in order |
| AllLawText.BuildOutputJson | script/get_all_law_text.py:242-249 | name, pcode and url pass through unchanged; `articles` is the flat list and `structure` the chapter tree |
| AllLawText.OutputJsonConsistent | script/get_all_law_text.py:242-249 | in the written document `structure` flattens to `articles`, which lists every accepted row in order |
| Dedup.KeepFirstSpec | src/taiwan_law_mcp/law_client.py:428-434 | the `seen` filter keeps exactly the first occurrence of each key, in order, and loses no key |
| Dedup.KeepFirstIdempotent | src/taiwan_law_mcp/law_client.py:428-434 | deduplicating twice changes nothing |

## Left out

- HTTP: sessions, `_get_home_and_state`, `_post_search`, `fetch_*` and `validate_pcode` are not modelled. A request is a parameter that either fails with a message or yields its data.
- HTML: BeautifulSoup selection, CSS class tests, `get_text` and the whitespace folding by `re.sub` are not modelled. The children of the content container are given already classified, with folded line texts. The anchors of a result page are given with their `pcode` query parameter and the regex-fallback pcode.
- `parse_single_row_html` / `parse_single_article`: the fetched article (number, display text, lines with their `numbered` flag) is a parameter.
- The reference regexes are given as match records. One caveat is not modelled: the greedy CJK article capture `[一-龥]+` can swallow text up to a later 條.
- `keyword_search`: the first `第 X 條` search on a content page is given as the page's `flno`. `str.lower` is a parameter.
- Search.KeywordSearch: only the listing request is modelled as the outer failure. Any other exception inside the outer `try` is not modelled.
- `isdigit`, `\d` and `int()` are modelled on ASCII digits only. `int()`'s acceptance of underscores is not modelled.
- `extract_law_meta` / `extract_meta_from_page` title scraping is not modelled.
- The `TaiwanLawClient` wrapper methods are not modelled.
- The MCP tool listing and dispatch (`server.py`, `call_tool`, `list_tools`, `main`) are not modelled.
- The CLI `main` functions, `demo.py` and `test_mcp.py` are not modelled.
- `script/get_law_code.py` and `script/law_keyword_search.py` are not part of this model. Their selection and dedup logic repeats what `Search` models.
- Aliasing: the source puts the same article dict in the flat list and in the tree. The model keeps value copies and proves that the two agree (`Structure.Inv`).
- Resolution.FetchRefArticles: an exception raised while parsing a fetched page is folded into the fetch failure.

## Findings

`extract_references` indexes its pattern list off by one from step 6 on. The
list has eight patterns: three pairs of range and single for 項, 款 and
目, then the bare article, then 前條. The numbered comments skip the
single-目 step, so the loops run as follows:

- step 6 ("bare article") runs over `REF_PATTERNS[5]`, the single-目 pattern;
- step 7 ("前條") runs over `REF_PATTERNS[6]`, the bare-article pattern;
- `REF_PATTERNS[7]`, the 前條 pattern, is never used.

Every single-目 match contains 目, so step 6 always `continue`s. The stray
前條 block at lines 356-369, which would raise `IndexError` on its missing
group, is therefore unreachable (`ReferencesAsWritten.AsWrittenNeverFails`).
The `References` module applies each pattern once, in list order, so that
step 6 uses the bare-article pattern and step 7 the 前條 pattern. It also adds
a single-目 step, which the numbered comments skip. The rest of the model uses
this module.

| source | as written | input that shows it | evidently intended | confidence | as-written member | corrected member |
|---|---|---|---|---|---|---|
| script/get_signal_txt.py:371-386 | step 7 applies the bare-article pattern and turns every `第X條` into an unqualified 前條 reference | line "第八條" inside article 16 gives 前條 → 15 | an explicit reference to article 8 | high; not executed | ReferencesAsWritten.BareArticleBecomesPrev | ReferencesAsWritten.BareArticleIntended |
| script/get_signal_txt.py:371 | the 前條 pattern `REF_PATTERNS[7]` is never applied | line "依前條規定" inside article 16 gives no reference | 前條 → 15 | high; not executed | ReferencesAsWritten.PrevPhraseIgnored | ReferencesAsWritten.PrevPhraseIntended |
| script/get_signal_txt.py:347-351 | step 6 applies the single-目 pattern and skips every match, because each contains 目 | line "第五條第二目" inside article 16 gives only 前條 → 15, from its `第五條` prefix; item 2 is lost | item 2 of article 5, and article 5 | high; not executed | ReferencesAsWritten.ItemOfArticleBecomesPrev | ReferencesAsWritten.ItemOfArticleIntended |
