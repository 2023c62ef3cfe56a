/**
 * Law search as src/taiwan_law_mcp/law_client.py and mcp_server_optimized.py
 * perform it (the two copies are the same text): the result-row extraction
 * of `_parse_search_results`, the status choice of `search_law_by_name`,
 * `get_law_pcode`, and the listing, deduplication and per-law examination of
 * `keyword_search`. HTTP requests are parameters: a listing that either
 * failed or yielded the result page's anchors, and a page fetch per pcode.
 */
module Search {
  import opened Wrappers
  import opened Text
  import opened Seqs
  import opened Dedup

  const Base := "https://law.moj.gov.tw/"

  /** Python truthiness of an optional string. */
  predicate Present(o: Option<string>) { o.Some? && o.value != [] }

  /**
   * A result anchor: its text, the `pcode` query parameter of its absolute
   * URL, and what the `pcode=([A-Z0-9]+)` fallback search of that URL finds.
   */
  datatype Anchor = Anchor(name: string, queryPcode: Option<string>, regexPcode: Option<string>)

  /** The anchor's pcode: the query parameter when truthy, else the fallback. */
  function AnchorPcode(a: Anchor): Option<string> {
    if Present(a.queryPcode) then a.queryPcode else a.regexPcode
  }

  function LawAllUrl(pcode: string): string {
    "https://law.moj.gov.tw/LawClass/LawAll.aspx?pcode=" + pcode
  }

  /** A search-result row: name, pcode and the full-text URL. */
  datatype LawRow = LawRow(name: string, pcode: string, url: string)

  function RowOf(a: Anchor): seq<LawRow> {
    var p := AnchorPcode(a);
    if Present(p) then [LawRow(a.name, p.value, LawAllUrl(p.value))] else []
  }

  /** The rows of the result page: one per anchor with a truthy pcode, in page order. */
  function SearchRows(anchors: seq<Anchor>): seq<LawRow> {
    FlatMap(anchors, RowOf)
  }

  /** Every row carries a non-empty pcode and the full-text URL of that pcode, and comes from an anchor. */
  lemma SearchRowsWellFormed(anchors: seq<Anchor>, row: LawRow)
    requires row in SearchRows(anchors)
    ensures row.pcode != [] && row.url == LawAllUrl(row.pcode)
    ensures exists a :: a in anchors && a.name == row.name && AnchorPcode(a) == Some(row.pcode)
  {
    FlatMapOrigin(anchors, RowOf, row);
  }

  predicate HasExact(rows: seq<LawRow>, name: string) {
    exists i :: 0 <= i < |rows| && rows[i].name == name
  }

  /** `next((r for r in rows if r["name"] == name), None)`. */
  function FirstNamed(rows: seq<LawRow>, name: string): (r: Option<LawRow>)
    ensures r.Some? <==> HasExact(rows, name)
    ensures r.Some? ==> exists i :: 0 <= i < |rows| && rows[i] == r.value && r.value.name == name &&
                                    forall j :: 0 <= j < i ==> rows[j].name != name
    decreases |rows|
  {
    if rows == [] then None
    else if rows[0].name == name then Some(rows[0])
    else
      var r := FirstNamed(rows[1..], name);
      assert HasExact(rows, name) ==> HasExact(rows[1..], name) by {
        if HasExact(rows, name) {
          var i :| 0 <= i < |rows| && rows[i].name == name;
          assert rows[1..][i - 1] == rows[i];
        }
      }
      assert r.Some? ==> exists i :: 0 <= i < |rows| && rows[i] == r.value && r.value.name == name &&
                                     forall j :: 0 <= j < i ==> rows[j].name != name by {
        if r.Some? {
          var i :| 0 <= i < |rows[1..]| && rows[1..][i] == r.value && r.value.name == name &&
                   forall j :: 0 <= j < i ==> rows[1..][j].name != name;
          assert rows[i + 1] == r.value;
          forall j | 0 <= j < i + 1 ensures rows[j].name != name {
            if j > 0 { assert rows[j] == rows[1..][j - 1]; }
          }
        }
      }
      r
  }

  datatype Status = ExactMatch | SingleMatch | MultipleMatches | NoMatch

  datatype SearchOutcome = SearchOutcome(status: Status, result: Option<LawRow>, suggestions: seq<LawRow>)

  /**
   * The status choice of `search_law_by_name`: the first row named exactly
   * like the stripped keyword, else the only row, else the first
   * `maxSuggestions` rows as suggestions, else no match.
   */
  function ChooseStatus(rows: seq<LawRow>, keyword: string, maxSuggestions: int): (o: SearchOutcome)
    ensures o.status == ExactMatch <==> HasExact(rows, Strip(keyword))
    ensures o.status == SingleMatch <==> !HasExact(rows, Strip(keyword)) && |rows| == 1
    ensures o.status == MultipleMatches <==> !HasExact(rows, Strip(keyword)) && |rows| > 1
    ensures o.status == NoMatch <==> rows == []
    ensures o.result.Some? <==> o.status == ExactMatch || o.status == SingleMatch
    ensures o.result.Some? ==> o.result.value in rows
    ensures o.status == ExactMatch ==> o.result.value.name == Strip(keyword)
    ensures o.suggestions == if o.status == MultipleMatches then PyHead(rows, maxSuggestions) else []
  {
    var exact := FirstNamed(rows, Strip(keyword));
    if exact.Some? then SearchOutcome(ExactMatch, exact, [])
    else if |rows| == 1 then SearchOutcome(SingleMatch, Some(rows[0]), [])
    else if rows != [] then SearchOutcome(MultipleMatches, None, PyHead(rows, maxSuggestions))
    else SearchOutcome(NoMatch, None, [])
  }

  /** `search_law_by_name`: a failed request propagates; otherwise the status choice over the rows. */
  function SearchLawByName(listing: Result<seq<Anchor>, string>, keyword: string, maxSuggestions: int)
    : (r: Result<SearchOutcome, string>)
    ensures r.Err? <==> listing.Err?
    ensures r.Ok? ==> r.value.result.Some? ==> r.value.result.value in SearchRows(listing.value)
    ensures r.Ok? && maxSuggestions >= 0 ==> |r.value.suggestions| <= maxSuggestions
  {
    match listing
    case Err(e) => Err(e)
    case Ok(anchors) => Ok(ChooseStatus(SearchRows(anchors), keyword, maxSuggestions))
  }

  /**
   * `get_law_pcode`: the pcode of the exact or single match, None for any
   * other status and for any failure.
   */
  function GetLawPcode(listing: Result<seq<Anchor>, string>, lawName: string): (r: Option<string>)
    ensures r.Some? <==> listing.Ok? &&
                         (HasExact(SearchRows(listing.value), Strip(lawName)) || |SearchRows(listing.value)| == 1)
  {
    match SearchLawByName(listing, lawName, 1)
    case Err(_) => None
    case Ok(o) => if o.status == ExactMatch || o.status == SingleMatch then Some(o.result.value.pcode) else None
  }

  /**
   * The pcode found is that of the first row named like the stripped name
   * when there is one, else of the only row; it is never empty.
   */
  lemma GetLawPcodeChoice(anchors: seq<Anchor>, lawName: string)
    ensures var rows := SearchRows(anchors);
            var r := GetLawPcode(Ok(anchors), lawName);
            (HasExact(rows, Strip(lawName)) ==> r == Some(FirstNamed(rows, Strip(lawName)).value.pcode)) &&
            (!HasExact(rows, Strip(lawName)) && |rows| == 1 ==> r == Some(rows[0].pcode)) &&
            (r.Some? ==> r.value != [])
  {
    var rows := SearchRows(anchors);
    var r := GetLawPcode(Ok(anchors), lawName);
    if r.Some? {
      var o := ChooseStatus(rows, lawName, 1);
      SearchRowsWellFormed(anchors, o.result.value);
    }
  }

  // ---- keyword_search ----

  /** A law listed by the keyword result page. */
  datatype LawLink = LawLink(lawName: string, pcode: string)

  function LinkOf(a: Anchor): seq<LawLink> {
    if Present(a.queryPcode) then [LawLink(a.name, a.queryPcode.value)] else []
  }

  /** The listed laws: anchors whose URL has a truthy `pcode` query parameter, in page order. */
  function LawLinks(anchors: seq<Anchor>): seq<LawLink> {
    FlatMap(anchors, LinkOf)
  }

  function LinkKey(l: LawLink): (string, string) { (l.pcode, l.lawName) }

  /** The listing loop of `keyword_search`. */
  method CollectLinks(anchors: seq<Anchor>) returns (links: seq<LawLink>)
    ensures links == LawLinks(anchors)
  {
    links := [];
    for i := 0 to |anchors|
      invariant links == LawLinks(anchors[..i])
    {
      assert anchors[..i + 1] == anchors[..i] + [anchors[i]];
      FlatMapSnoc(anchors[..i], anchors[i], LinkOf);
      var a := anchors[i];
      if a.queryPcode.Some? && a.queryPcode.value != [] {
        links := links + [LawLink(a.name, a.queryPcode.value)];
      }
    }
    assert anchors[..|anchors|] == anchors;
  }

  /** The `seen`-set loop of `keyword_search`, keeping the first law of each `(pcode, law_name)`. */
  method UniqueLaws(links: seq<LawLink>) returns (unique: seq<LawLink>)
    ensures unique == KeepFirst(links, LinkKey)
  {
    var seen: set<(string, string)> := {};
    unique := [];
    for i := 0 to |links|
      invariant unique == KeepFirst(links[..i], LinkKey)
      invariant seen == KeySet(unique, LinkKey)
    {
      assert links[..i + 1] == links[..i] + [links[i]];
      KeepFirstSnoc(links[..i], LinkKey, links[i]);
      var key := (links[i].pcode, links[i].lawName);
      if key !in seen {
        KeySetSnoc(unique, LinkKey, links[i]);
        seen := seen + {key};
        unique := unique + [links[i]];
      }
    }
    assert links[..|links|] == links;
  }

  /** The laws `keyword_search` examines: the deduplicated list cut to `max_results`. */
  function ExaminedLaws(anchors: seq<Anchor>, maxResults: int): seq<LawLink> {
    PyHead(KeepFirst(LawLinks(anchors), LinkKey), maxResults)
  }

  /**
   * The examined laws are listed laws, no two share `(pcode, law_name)`,
   * every listed key is examined unless the cut drops it, and there are at
   * most `max_results` of them.
   */
  lemma ExaminedLawsSpec(anchors: seq<Anchor>, maxResults: int)
    ensures var e := ExaminedLaws(anchors, maxResults);
            NoDupKeys(e, LinkKey) &&
            (forall l :: l in e ==> l in LawLinks(anchors)) &&
            (maxResults >= 0 ==> |e| <= maxResults) &&
            (maxResults >= |LawLinks(anchors)| ==> KeySet(e, LinkKey) == KeySet(LawLinks(anchors), LinkKey))
  {
    var links := LawLinks(anchors);
    var u := KeepFirst(links, LinkKey);
    KeepFirstSpec(links, LinkKey);
    KeepFirstSubset(links, LinkKey);
    var e := ExaminedLaws(anchors, maxResults);
    assert forall i :: 0 <= i < |e| ==> e[i] == u[i];
    if maxResults >= |links| {
      assert |u| <= |links| by { KeepFirstLength(links, LinkKey); }
      assert e == u;
    }
  }

  lemma {:induction false} KeepFirstLength<T, K>(xs: seq<T>, key: T -> K)
    ensures |KeepFirst(xs, key)| <= |xs|
    decreases |xs|
  {
    if xs != [] {
      KeepFirstLength(xs[..|xs| - 1], key);
    }
  }

  /**
   * A law's search-content page: the number captured by the first
   * `第 X 條` text (the regex search is not modelled), and the
   * whitespace-folded texts of its line divs.
   */
  datatype LawPage = LawPage(flno: Option<string>, rawLines: seq<string>)

  /** A reported law; `lines` is None when `summary_only` left the key out. */
  datatype KeywordHit = KeywordHit(lawName: string, pcode: string, flno: string, noText: string,
                                   url: string, matchedLines: seq<string>, lines: Option<seq<string>>)

  /** `k in s` for strings. */
  predicate IsInfix(k: string, s: string) {
    exists i | 0 <= i <= |s| - |k| :: OccursAt(k, s, i)
  }

  predicate OccursAt(k: string, s: string, i: int) {
    0 <= i <= |s| - |k| && s[i..i + |k|] == k
  }

  /**
   * The lines holding the keyword, compared after `lower` (which stands for
   * Python's `str.lower`).
   */
  function MatchedLines(lines: seq<string>, keyword: string, lower: string -> string): seq<string> {
    Filter(lines, (l: string) => IsInfix(lower(keyword), lower(l)))
  }

  /** Whether some non-empty line holds the keyword, compared after `lower`. */
  predicate HasMatchingLine(rawLines: seq<string>, keyword: string, lower: string -> string) {
    exists l :: l in rawLines && NonEmptyText(l) && IsInfix(lower(keyword), lower(l))
  }

  function HitKey(h: KeywordHit): (string, string) { (h.pcode, h.lawName) }

  /**
   * The examination of one law: nothing when the fetch fails, when no
   * article number is found, or when no line holds the keyword.
   */
  function Examine(law: LawLink, page: Result<LawPage, string>, keyword: string, lower: string -> string,
                   summaryOnly: bool): (r: Option<KeywordHit>)
    ensures r.Some? ==> r.value.matchedLines != [] && HitKey(r.value) == LinkKey(law)
    ensures r.Some? ==> page.Ok? && Present(page.value.flno) && r.value.flno == page.value.flno.value
    ensures r.Some? ==> r.value.matchedLines == MatchedLines(Filter(page.value.rawLines, NonEmptyText), keyword, lower)
    ensures r.Some? ==> (r.value.lines.None? <==> summaryOnly)
    ensures r.Some? && r.value.lines.Some? ==> r.value.lines.value == Filter(page.value.rawLines, NonEmptyText)
  {
    if page.Err? || !Present(page.value.flno) then None
    else
      var flno := page.value.flno.value;
      var lines := Filter(page.value.rawLines, NonEmptyText);
      var matched := MatchedLines(lines, keyword, lower);
      if matched == [] then None
      else Some(KeywordHit(law.lawName, law.pcode, flno, "第 " + flno + " 條",
                           Base + "LawClass/LawSingle.aspx?pcode=" + law.pcode + "&flno=" + flno,
                           matched, if summaryOnly then None else Some(lines)))
  }

  /**
   * A law is reported exactly when its page was fetched, has an article
   * number, and has a non-empty line holding the keyword.
   */
  lemma ExamineReportsIff(law: LawLink, page: Result<LawPage, string>, keyword: string, lower: string -> string,
                          summaryOnly: bool)
    ensures Examine(law, page, keyword, lower, summaryOnly).Some?
            <==> page.Ok? && Present(page.value.flno) && HasMatchingLine(page.value.rawLines, keyword, lower)
  {
    if page.Ok? {
      MatchedIff(page.value.rawLines, keyword, lower);
    }
  }

  /** Some non-empty line matches exactly when the matched lines are not empty. */
  lemma MatchedIff(rawLines: seq<string>, keyword: string, lower: string -> string)
    ensures MatchedLines(Filter(rawLines, NonEmptyText), keyword, lower) != [] <==> HasMatchingLine(rawLines, keyword, lower)
  {
    var lines := Filter(rawLines, NonEmptyText);
    var matched := MatchedLines(lines, keyword, lower);
    if HasMatchingLine(rawLines, keyword, lower) {
      var l :| l in rawLines && NonEmptyText(l) && IsInfix(lower(keyword), lower(l));
      FilterComplete(rawLines, NonEmptyText, l);
      FilterComplete(lines, (l: string) => IsInfix(lower(keyword), lower(l)), l);
    }
    if matched != [] {
      assert matched[0] in lines;
    }
  }

  /** The reports for `laws`, in order. */
  function Hits(laws: seq<LawLink>, fetch: string -> Result<LawPage, string>, keyword: string,
                lower: string -> string, summaryOnly: bool): seq<KeywordHit>
    decreases |laws|
  {
    if laws == [] then []
    else
      var rest := Hits(laws[..|laws| - 1], fetch, keyword, lower, summaryOnly);
      var law := laws[|laws| - 1];
      match Examine(law, fetch(law.pcode), keyword, lower, summaryOnly)
      case Some(h) => rest + [h]
      case None => rest
  }

  /**
   * Every examined law whose examination succeeds is reported; by the
   * contract of `Examine`, that is every law whose page has an article
   * number and a non-empty line holding the keyword.
   */
  lemma {:induction false} HitsComplete(laws: seq<LawLink>, fetch: string -> Result<LawPage, string>, keyword: string,
                                        lower: string -> string, summaryOnly: bool, law: LawLink)
    requires law in laws
    requires Examine(law, fetch(law.pcode), keyword, lower, summaryOnly).Some?
    ensures Examine(law, fetch(law.pcode), keyword, lower, summaryOnly).value in Hits(laws, fetch, keyword, lower, summaryOnly)
    decreases |laws|
  {
    var n := |laws| - 1;
    HitsLast(laws, fetch, keyword, lower, summaryOnly);
    if law != laws[n] {
      assert laws == laws[..n] + [laws[n]];
      HitsComplete(laws[..n], fetch, keyword, lower, summaryOnly, law);
    }
  }

  /** The reports for a non-empty list: those for all but the last law, then the last law's, if any. */
  lemma HitsLast(laws: seq<LawLink>, fetch: string -> Result<LawPage, string>, keyword: string,
                 lower: string -> string, summaryOnly: bool)
    requires laws != []
    ensures var e := Examine(laws[|laws| - 1], fetch(laws[|laws| - 1].pcode), keyword, lower, summaryOnly);
            Hits(laws, fetch, keyword, lower, summaryOnly)
            == Hits(laws[..|laws| - 1], fetch, keyword, lower, summaryOnly) + (if e.Some? then [e.value] else [])
  {
  }

  /** Each report belongs to one of the examined laws, and a law is reported at most once. */
  lemma {:induction false} HitsSpec(laws: seq<LawLink>, fetch: string -> Result<LawPage, string>, keyword: string,
                                    lower: string -> string, summaryOnly: bool)
    requires NoDupKeys(laws, LinkKey)
    ensures var hs := Hits(laws, fetch, keyword, lower, summaryOnly);
            |hs| <= |laws| && NoDupKeys(hs, HitKey) &&
            forall h :: h in hs ==> HitKey(h) in KeySet(laws, LinkKey)
    decreases |laws|
  {
    if laws != [] {
      var n := |laws| - 1;
      var init, law := laws[..n], laws[n];
      assert laws == init + [law];
      KeySetSnoc(init, LinkKey, law);
      HitsSpec(init, fetch, keyword, lower, summaryOnly);
      var rest := Hits(init, fetch, keyword, lower, summaryOnly);
      assert LinkKey(law) !in KeySet(init, LinkKey) by {
        forall i | 0 <= i < n ensures LinkKey(init[i]) != LinkKey(law) {
          assert init[i] == laws[i];
        }
      }
      match Examine(law, fetch(law.pcode), keyword, lower, summaryOnly)
      case Some(h) =>
        var hs := rest + [h];
        forall i, j | 0 <= i < j < |hs| ensures HitKey(hs[i]) != HitKey(hs[j]) {
          if j == |rest| {
            assert hs[i] in rest;
          }
        }
      case None =>
    }
  }

  /** `keyword_search`'s result: the search keyword, the reports and their count, and the request options. */
  datatype KeywordReport = KeywordReport(keyword: string, count: nat, results: seq<KeywordHit>,
                                         maxResults: int, summaryOnly: bool)

  /**
   * `keyword_search`: a failed listing request yields the error; otherwise
   * the listed laws are deduplicated, cut to `max_results` and examined in
   * order, a failing law being skipped.
   */
  method KeywordSearch(keyword: string, listing: Result<seq<Anchor>, string>,
                       fetch: string -> Result<LawPage, string>, lower: string -> string,
                       maxResults: int, summaryOnly: bool)
    returns (r: Result<KeywordReport, string>)
    ensures listing.Err? ==> r == Err(listing.error)
    ensures listing.Ok? ==>
              var hs := Hits(ExaminedLaws(listing.value, maxResults), fetch, keyword, lower, summaryOnly);
              r == Ok(KeywordReport(keyword, |hs|, hs, maxResults, summaryOnly))
  {
    if listing.Err? {
      return Err(listing.error);
    }
    var links := CollectLinks(listing.value);
    var unique := UniqueLaws(links);
    var laws := PyHead(unique, maxResults);
    var results: seq<KeywordHit> := [];
    for i := 0 to |laws|
      invariant results == Hits(laws[..i], fetch, keyword, lower, summaryOnly)
    {
      assert laws[..i + 1][..i] == laws[..i];
      var law := laws[i];
      var hit := Examine(law, fetch(law.pcode), keyword, lower, summaryOnly);
      if hit.Some? {
        results := results + [hit.value];
      }
    }
    assert laws[..|laws|] == laws;
    r := Ok(KeywordReport(keyword, |results|, results, maxResults, summaryOnly));
  }

  /**
   * What a successful keyword search reports: at most `max_results` laws,
   * each listed, none twice, each with at least one matching line, with the
   * full lines exactly when not `summary_only`; `count` is their number.
   */
  lemma KeywordSearchSpec(keyword: string, anchors: seq<Anchor>, fetch: string -> Result<LawPage, string>,
                          lower: string -> string, maxResults: int, summaryOnly: bool)
    ensures var hs := Hits(ExaminedLaws(anchors, maxResults), fetch, keyword, lower, summaryOnly);
            NoDupKeys(hs, HitKey) &&
            (maxResults >= 0 ==> |hs| <= maxResults) &&
            (forall h :: h in hs ==> h.matchedLines != [] && (h.lines.None? <==> summaryOnly) &&
                                     exists l :: l in LawLinks(anchors) && LinkKey(l) == HitKey(h))
  {
    var e := ExaminedLaws(anchors, maxResults);
    ExaminedLawsSpec(anchors, maxResults);
    HitsSpec(e, fetch, keyword, lower, summaryOnly);
    var hs := Hits(e, fetch, keyword, lower, summaryOnly);
    forall h | h in hs
      ensures h.matchedLines != [] && (h.lines.None? <==> summaryOnly) &&
              exists l :: l in LawLinks(anchors) && LinkKey(l) == HitKey(h)
    {
      HitFrom(e, fetch, keyword, lower, summaryOnly, h);
      var i :| 0 <= i < |e| && LinkKey(e[i]) == HitKey(h);
      assert e[i] in LawLinks(anchors);
    }
  }

  lemma {:induction false} HitFrom(laws: seq<LawLink>, fetch: string -> Result<LawPage, string>, keyword: string,
                                   lower: string -> string, summaryOnly: bool, h: KeywordHit)
    requires h in Hits(laws, fetch, keyword, lower, summaryOnly)
    ensures h.matchedLines != [] && (h.lines.None? <==> summaryOnly)
    ensures exists i :: 0 <= i < |laws| && LinkKey(laws[i]) == HitKey(h)
    decreases |laws|
  {
    var n := |laws| - 1;
    var law := laws[n];
    var rest := Hits(laws[..n], fetch, keyword, lower, summaryOnly);
    if h in rest {
      HitFrom(laws[..n], fetch, keyword, lower, summaryOnly, h);
      var i :| 0 <= i < n && LinkKey(laws[..n][i]) == HitKey(h);
      assert laws[i] == laws[..n][i];
    } else {
      assert Examine(law, fetch(law.pcode), keyword, lower, summaryOnly) == Some(h);
    }
  }
}
