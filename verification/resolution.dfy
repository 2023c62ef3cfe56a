/**
 * `fetch_ref_articles` of script/get_signal_txt.py: fetch each referenced
 * article (at most `max_refs` of them) and pick the paragraph, subparagraph
 * or item the reference names, or report the fetch error.
 *
 * Fetching and parsing one article (`fetch_single_by_pcode_flno` followed by
 * `parse_single_row_html`) is a function parameter: it gives the parsed
 * article and its URL, or the message of the exception it raised.
 */
module Resolution {
  import opened Wrappers
  import opened Text
  import opened Seqs
  import opened Pickers
  import opened References

  /** What `parse_single_row_html` returns: `{no_text, flno, lines}`. */
  datatype ParsedArticle = ParsedArticle(noText: Option<string>, flno: Option<string>, lines: seq<Line>)

  datatype Fetched = Fetched(article: ParsedArticle, url: string)

  /** One entry of the result list: the resolved article, or the error met while fetching it. */
  datatype RefArticle =
    | Resolved(refText: string, targetFlno: Option<string>, targetNoText: Option<string>, url: string,
               itemIndex: Option<nat>, kuanIndex: Option<nat>, muIndex: Option<nat>,
               selectedLevel: Option<Level>, selectedText: Option<string>, lines: Option<seq<Line>>)
    | Failed(refText: string, targetFlno: Option<string>, error: string)

  /** The chosen text and the level last tried. */
  datatype Selection = Selection(text: Option<string>, level: Option<Level>)

  /** Python truthiness of an `Optional[str]`: present and non-empty. */
  predicate TruthyText(t: Option<string>) { t.Some? && t.value != [] }

  /** The picker for one level. */
  function PickAt(lines: seq<Line>, level: Level, idx: nat): Option<string> {
    match level
    case ItemLevel => PickItemText(lines, idx)
    case KuanLevel => PickKuanText(lines, idx)
    case MuLevel => PickMuText(lines, idx)
  }

  /**
   * The selection cascade: try the paragraph when an item index is given,
   * then, while nothing was chosen, the subparagraph, then the item. The
   * level reported is the last one tried, whether or not it found text.
   */
  function Select(lines: seq<Line>, item: Option<nat>, kuan: Option<nat>, mu: Option<nat>): (s: Selection)
    ensures s.level.None? <==> !Truthy(item) && !Truthy(kuan) && !Truthy(mu)
    ensures s.level.Some? ==> Truthy(IndexOf(item, kuan, mu, s.level.value))
                              && s.text == PickAt(lines, s.level.value, IndexOf(item, kuan, mu, s.level.value).value)
    ensures s.level.None? ==> s.text.None?
    ensures s.level == Some(ItemLevel) ==> Truthy(item) && (TruthyText(s.text) || (!Truthy(kuan) && !Truthy(mu)))
    ensures s.level == Some(KuanLevel) ==> Truthy(kuan) && !(Truthy(item) && TruthyText(PickItemText(lines, item.value)))
    ensures s.level == Some(MuLevel) ==> Truthy(mu)
                                          && !(Truthy(item) && TruthyText(PickItemText(lines, item.value)))
                                          && !(Truthy(kuan) && TruthyText(PickKuanText(lines, kuan.value)))
  {
    var s1 := if Truthy(item) then Selection(PickItemText(lines, item.value), Some(ItemLevel)) else Selection(None, None);
    var s2 := if !TruthyText(s1.text) && Truthy(kuan) then Selection(PickKuanText(lines, kuan.value), Some(KuanLevel)) else s1;
    if !TruthyText(s2.text) && Truthy(mu) then Selection(PickMuText(lines, mu.value), Some(MuLevel)) else s2
  }

  function IndexOf(item: Option<nat>, kuan: Option<nat>, mu: Option<nat>, level: Level): Option<nat> {
    match level
    case ItemLevel => item
    case KuanLevel => kuan
    case MuLevel => mu
  }

  /** One iteration of the loop: the entry for reference `r`. */
  function ResolveOne(fetch: (string, string) -> Result<Fetched, string>, pcode: string, r: Reference): RefArticle {
    match fetch(pcode, r.flno)
    case Err(e) => Failed(r.hit, Some(r.flno), e)
    case Ok(f) =>
      var s := Select(f.article.lines, r.item, r.kuan, r.mu);
      Resolved(r.hit, f.article.flno, f.article.noText, f.url, r.item, r.kuan, r.mu,
               s.level, s.text, if TruthyText(s.text) then None else Some(f.article.lines))
  }

  /** `fetch_ref_articles(pcode, refs, max_refs)`. */
  method FetchRefArticles(fetch: (string, string) -> Result<Fetched, string>, pcode: string, refs: seq<Reference>, maxRefs: int)
    returns (results: seq<RefArticle>)
    ensures |results| == |PyHead(refs, maxRefs)|
    ensures forall i :: 0 <= i < |results| ==> results[i] == ResolveOne(fetch, pcode, refs[i])
  {
    var todo := PyHead(refs, maxRefs);
    results := [];
    for i := 0 to |todo|
      invariant |results| == i
      invariant forall k :: 0 <= k < i ==> results[k] == ResolveOne(fetch, pcode, refs[k])
    {
      var r := todo[i];
      assert r == refs[i];
      var entry: RefArticle;
      var fetched := fetch(pcode, r.flno);
      if fetched.Err? {
        entry := Failed(r.hit, Some(r.flno), fetched.error);
      } else {
        var parsed := fetched.value.article;
        var chosenText: Option<string> := None;
        var chosenLevel: Option<Level> := None;
        if Truthy(r.item) {
          chosenText := PickItemText(parsed.lines, r.item.value);
          chosenLevel := Some(ItemLevel);
        }
        if !TruthyText(chosenText) && Truthy(r.kuan) {
          chosenText := PickKuanText(parsed.lines, r.kuan.value);
          chosenLevel := Some(KuanLevel);
        }
        if !TruthyText(chosenText) && Truthy(r.mu) {
          chosenText := PickMuText(parsed.lines, r.mu.value);
          chosenLevel := Some(MuLevel);
        }
        entry := Resolved(r.hit, parsed.flno, parsed.noText, fetched.value.url, r.item, r.kuan, r.mu,
                          chosenLevel, chosenText, if TruthyText(chosenText) then None else Some(parsed.lines));
      }
      results := results + [entry];
    }
  }

  /**
   * An entry fails exactly when fetching failed, and then carries the
   * reference's own article number; otherwise it carries the reference's
   * hit and indexes and the fetched article's number, heading and URL, and
   * the whole article's lines exactly when no text was selected.
   */
  lemma ResolveOneShape(fetch: (string, string) -> Result<Fetched, string>, pcode: string, r: Reference)
    ensures var a := ResolveOne(fetch, pcode, r);
            a.refText == r.hit &&
            (a.Failed? <==> fetch(pcode, r.flno).Err?) &&
            (a.Failed? ==> a.targetFlno == Some(r.flno) && a.error == fetch(pcode, r.flno).error) &&
            (a.Resolved? ==>
               var f := fetch(pcode, r.flno).value;
               a.targetFlno == f.article.flno && a.targetNoText == f.article.noText && a.url == f.url &&
               a.itemIndex == r.item && a.kuanIndex == r.kuan && a.muIndex == r.mu &&
               (a.lines.Some? <==> !TruthyText(a.selectedText)) &&
               (a.lines.Some? ==> a.lines.value == f.article.lines))
  {
  }

  /** A reference without any index gets the whole article and no level. */
  lemma WholeArticleWithoutIndex(fetch: (string, string) -> Result<Fetched, string>, pcode: string, r: Reference)
    requires r.item.None? && r.kuan.None? && r.mu.None?
    requires fetch(pcode, r.flno).Ok?
    ensures var a := ResolveOne(fetch, pcode, r);
            a.selectedLevel.None? && a.selectedText.None? && a.lines == Some(fetch(pcode, r.flno).value.article.lines)
  {
  }

  /**
   * With a paragraph index inside the article, the paragraph is the text
   * chosen (parsed lines are never empty).
   */
  lemma ParagraphSelected(lines: seq<Line>, idx: nat)
    requires 1 <= idx <= |lines|
    requires forall j :: 0 <= j < |lines| ==> lines[j].text != []
    ensures Select(lines, Some(idx), None, None) == Selection(PickItemText(lines, idx), Some(ItemLevel))
    ensures TruthyText(PickItemText(lines, idx))
  {
    var t := PickItemText(lines, idx);
    var nb := Filter(lines, IsNumbered);
    if nb != [] && idx <= |nb| {
      assert nb[idx - 1] in nb;
      assert nb[idx - 1] in lines;
    }
  }
}
