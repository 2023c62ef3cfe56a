/**
 * The chapter/section/article fold shared by `parse_law_content`
 * (src/taiwan_law_mcp/law_client.py, mcp_server_optimized.py,
 * mcp_server_simple.py) and `parse_reg_content`
 * (script/get_all_law_text.py). The children of the `.law-reg-content`
 * container are given already classified as blocks; the four copies differ
 * only in the `max_articles` cap, the one-line `summary_mode` and the
 * `meta` block, which the uncapped copies never produce (their behaviour is
 * that of `summary_mode = False, max_articles = 0`).
 *
 * The source shares each article dict between the flat list and the tree;
 * here both hold value copies, and `Inv` states that they agree.
 */
module Structure {
  import opened Wrappers
  import opened Text
  import opened Seqs

  /** A child of the content container, as the parser classifies it. */
  datatype Block =
    | ChapterHeading(title: string)                                  // div.h3.char-2
    | SectionHeading(title: string)                                  // div.h3.char-3
    // div.row with a number anchor and an article box: the anchor's name and
    // text, the whitespace-folded texts of the box's line divs, and the count
    // of all divs in the box
    | ArticleRow(anchorName: string, noText: string, rawLines: seq<string>, divCount: nat)
    | RowMissingParts                                                // div.row lacking one of them
    | Other                                                          // any other node

  /** An article item; `truncated` stands for the key being present. */
  datatype Article = Article(flno: string, noText: string, textLines: seq<string>,
                             chapter: Option<string>, section: Option<string>, truncated: bool)
  datatype Section = Section(title: string, articles: seq<Article>)
  datatype Chapter = Chapter(title: string, sections: seq<Section>, articles: seq<Article>)
  datatype Meta = Meta(totalParsed: nat, summaryMode: bool, maxArticles: int)
  datatype Parsed = Parsed(chapters: seq<Chapter>, flat: seq<Article>, meta: Option<Meta>)

  /**
   * The fold's state. The current chapter is the last of `chapters` (none
   * when it is empty); when `inSection`, the current section is the last
   * section of that chapter.
   */
  datatype State = State(chapters: seq<Chapter>, flat: seq<Article>, inSection: bool)

  function Last<T>(xs: seq<T>): T
    requires xs != []
  {
    xs[|xs| - 1]
  }

  predicate Shape(s: State) {
    (s.inSection ==> s.chapters != [] && Last(s.chapters).sections != []) &&
    (!s.inSection && s.chapters != [] ==> Last(s.chapters).sections == [])
  }

  function SectionArticles(sec: Section): seq<Article> { sec.articles }

  /** A chapter's articles in reading order: its own, then each section's. */
  function ChapterArticles(c: Chapter): seq<Article> {
    c.articles + FlatMap(c.sections, SectionArticles)
  }

  /** All articles of the tree in reading order. */
  function Flatten(chapters: seq<Chapter>): seq<Article> {
    FlatMap(chapters, ChapterArticles)
  }

  predicate SectionTitlesOk(sec: Section, chapterTitle: string) {
    forall a :: a in sec.articles ==> a.chapter == Some(chapterTitle) && a.section == Some(sec.title)
  }

  /**
   * An article sits under the titles it records, except that an article
   * read before any chapter records none and sits in the first chapter,
   * which the parser then synthesized with title "".
   */
  predicate ChapterTitlesOk(c: Chapter, first: bool) {
    (forall a :: a in c.articles ==>
       a.section.None? && (a.chapter == Some(c.title) || (first && a.chapter.None? && c.title == [])))
    && (forall j :: 0 <= j < |c.sections| ==> SectionTitlesOk(c.sections[j], c.title))
  }

  predicate TitlesOk(chapters: seq<Chapter>) {
    forall i :: 0 <= i < |chapters| ==> ChapterTitlesOk(chapters[i], i == 0)
  }

  /** What the fold maintains: the shape, the tree agreeing with the flat list, and the titles. */
  predicate Inv(s: State) {
    Shape(s) && Flatten(s.chapters) == s.flat && TitlesOk(s.chapters)
  }

  /** The text lines kept for an article: the non-empty ones, only the first in summary mode. */
  function ArticleLines(raw: seq<string>, summary: bool): (r: seq<string>)
    ensures summary ==> |r| <= 1
  {
    var lines := Filter(raw, NonEmptyText);
    if summary then Take(lines, 1) else lines
  }

  function CurrentChapterTitle(s: State): Option<string> {
    if s.chapters == [] then None else Some(Last(s.chapters).title)
  }

  function CurrentSectionTitle(s: State): Option<string>
    requires Shape(s)
  {
    if s.inSection then Some(Last(Last(s.chapters).sections).title) else None
  }

  /** The tree after adding `a` to the current section, else the current chapter, else a new "" chapter. */
  function Place(s: State, a: Article): seq<Chapter>
    requires Shape(s)
  {
    if s.inSection then
      var c := Last(s.chapters);
      var sec := Last(c.sections);
      s.chapters[|s.chapters| - 1 := c.(sections := c.sections[|c.sections| - 1 := sec.(articles := sec.articles + [a])])]
    else if s.chapters != [] then
      var c := Last(s.chapters);
      s.chapters[|s.chapters| - 1 := c.(articles := c.articles + [a])]
    else [Chapter([], [], [a])]
  }

  /** The article an accepted row yields, with the titles current when it is read. */
  function MakeArticle(s: State, name: string, noText: string, raw: seq<string>, divCount: nat, summary: bool): Article
    requires Shape(s)
  {
    var lines := ArticleLines(raw, summary);
    Article(Strip(name), noText, lines, CurrentChapterTitle(s), CurrentSectionTitle(s),
            summary && divCount > |lines|)
  }

  /** The tree after opening section `t` in the current chapter, first creating a chapter "" if there is none. */
  function AddSection(chapters: seq<Chapter>, t: string): (r: seq<Chapter>)
    ensures r != [] && Last(r).sections != []
  {
    var chs := if chapters == [] then [Chapter([], [], [])] else chapters;
    var c := Last(chs);
    chs[|chs| - 1 := c.(sections := c.sections + [Section(t, [])])]
  }

  /** One iteration of the loop over the container's children. */
  function Step(s: State, b: Block, summary: bool): (r: State)
    requires Shape(s)
    ensures Shape(r)
  {
    match b
    case ChapterHeading(t) => State(s.chapters + [Chapter(t, [], [])], s.flat, false)
    case SectionHeading(t) => State(AddSection(s.chapters, t), s.flat, true)
    case ArticleRow(name, noText, raw, divCount) =>
      var a := MakeArticle(s, name, noText, raw, divCount, summary);
      State(Place(s, a), s.flat + [a], s.inSection)
    case RowMissingParts => s
    case Other => s
  }

  /** Whether the cap stops the loop before the next child. */
  predicate Capped(s: State, maxArticles: int) {
    maxArticles > 0 && |s.flat| >= maxArticles
  }

  /** The loop from state `s` over the remaining children `bs`. */
  function Run(bs: seq<Block>, s: State, summary: bool, maxArticles: int): (r: State)
    requires Shape(s)
    ensures Shape(r)
    decreases |bs|
  {
    if bs == [] || Capped(s, maxArticles) then s
    else Run(bs[1..], Step(s, bs[0], summary), summary, maxArticles)
  }

  const Init := State([], [], false)

  /**
   * `parse_law_content` / `parse_reg_content`: an error when the content
   * container is missing; otherwise the tree, the flat list, and `meta`
   * exactly when `summary_mode` or a positive `max_articles` was asked for.
   */
  function ParseContent(root: Option<seq<Block>>, summary: bool, maxArticles: int): (r: Result<Parsed, string>)
    ensures r.Err? <==> root.None?
    ensures r.Ok? ==> (r.value.meta.Some? <==> summary || maxArticles > 0)
    ensures r.Ok? && r.value.meta.Some? ==>
              r.value.meta.value == Meta(|r.value.flat|, summary, maxArticles)
  {
    match root
    case None => Err("content block not found")
    case Some(bs) =>
      var s := Run(bs, Init, summary, maxArticles);
      Ok(Parsed(s.chapters, s.flat,
                if summary || maxArticles > 0 then Some(Meta(|s.flat|, summary, maxArticles)) else None))
  }

  // ---- The tree agrees with the flat list ----

  lemma PlaceFlatten(s: State, a: Article)
    requires Shape(s)
    ensures Flatten(Place(s, a)) == Flatten(s.chapters) + [a]
  {
    if s.inSection {
      PlaceInSectionFlatten(s, a);
    } else if s.chapters != [] {
      var n := |s.chapters| - 1;
      var c := Last(s.chapters);
      var c' := c.(articles := c.articles + [a]);
      assert ChapterArticles(c') == ChapterArticles(c) + [a];
      assert s.chapters == s.chapters[..n] + [c];
      assert Place(s, a) == s.chapters[..n] + [c'];
      FlatMapSnoc(s.chapters[..n], c, ChapterArticles);
      FlatMapSnoc(s.chapters[..n], c', ChapterArticles);
    } else {
      FlatMapSnoc([], Chapter([], [], [a]), ChapterArticles);
      assert [] + [Chapter([], [], [a])] == Place(s, a);
    }
  }

  lemma PlaceInSectionFlatten(s: State, a: Article)
    requires Shape(s) && s.inSection
    ensures Flatten(Place(s, a)) == Flatten(s.chapters) + [a]
  {
    var n := |s.chapters| - 1;
    var c := Last(s.chapters);
    var m := |c.sections| - 1;
    var sec := Last(c.sections);
    var sec' := sec.(articles := sec.articles + [a]);
    var c' := c.(sections := c.sections[m := sec']);
    assert c.sections == c.sections[..m] + [sec];
    assert c'.sections == c.sections[..m] + [sec'];
    FlatMapSnoc(c.sections[..m], sec, SectionArticles);
    FlatMapSnoc(c.sections[..m], sec', SectionArticles);
    assert ChapterArticles(c') == ChapterArticles(c) + [a];
    assert s.chapters == s.chapters[..n] + [c];
    assert Place(s, a) == s.chapters[..n] + [c'];
    FlatMapSnoc(s.chapters[..n], c, ChapterArticles);
    FlatMapSnoc(s.chapters[..n], c', ChapterArticles);
  }

  lemma AddSectionFlatten(chapters: seq<Chapter>, t: string)
    ensures Flatten(AddSection(chapters, t)) == Flatten(chapters)
  {
    var chs := if chapters == [] then [Chapter([], [], [])] else chapters;
    var n := |chs| - 1;
    var c := Last(chs);
    var c' := c.(sections := c.sections + [Section(t, [])]);
    FlatMapSnoc(c.sections, Section(t, []), SectionArticles);
    assert ChapterArticles(c') == ChapterArticles(c);
    assert chs == chs[..n] + [c];
    assert chs[n := c'] == chs[..n] + [c'];
    FlatMapSnoc(chs[..n], c, ChapterArticles);
    FlatMapSnoc(chs[..n], c', ChapterArticles);
    if chapters == [] {
      assert chs[..n] == [];
    }
  }

  lemma StepFlatten(s: State, b: Block, summary: bool)
    requires Shape(s) && Flatten(s.chapters) == s.flat
    ensures Flatten(Step(s, b, summary).chapters) == Step(s, b, summary).flat
  {
    match b
    case ChapterHeading(t) =>
      FlatMapSnoc(s.chapters, Chapter(t, [], []), ChapterArticles);
    case SectionHeading(t) =>
      AddSectionFlatten(s.chapters, t);
    case ArticleRow(name, noText, raw, divCount) =>
      PlaceFlatten(s, MakeArticle(s, name, noText, raw, divCount, summary));
    case RowMissingParts =>
    case Other =>
  }

  // ---- Every article sits under the titles it records ----

  lemma AddChapterTitles(chapters: seq<Chapter>, t: string)
    requires TitlesOk(chapters)
    ensures TitlesOk(chapters + [Chapter(t, [], [])])
  {
    var r := chapters + [Chapter(t, [], [])];
    forall i | 0 <= i < |r| ensures ChapterTitlesOk(r[i], i == 0) {
      if i < |chapters| {
        assert r[i] == chapters[i];
      }
    }
  }

  lemma AddSectionTitles(chapters: seq<Chapter>, t: string)
    requires TitlesOk(chapters)
    ensures TitlesOk(AddSection(chapters, t))
  {
    var chs := if chapters == [] then [Chapter([], [], [])] else chapters;
    var n := |chs| - 1;
    var c := Last(chs);
    var c' := c.(sections := c.sections + [Section(t, [])]);
    var r := AddSection(chapters, t);
    assert r == chs[n := c'];
    assert ChapterTitlesOk(c, n == 0);
    assert ChapterTitlesOk(c', n == 0);
    forall i | 0 <= i < |r| ensures ChapterTitlesOk(r[i], i == 0) {
      if i < n {
        assert r[i] == chs[i];
      }
    }
  }

  lemma PlaceInSectionTitles(s: State, a: Article)
    requires Shape(s) && s.inSection && TitlesOk(s.chapters)
    requires a.chapter == CurrentChapterTitle(s) && a.section == CurrentSectionTitle(s)
    ensures TitlesOk(Place(s, a))
  {
    var r := Place(s, a);
    var n := |s.chapters| - 1;
    var c := Last(s.chapters);
    var m := |c.sections| - 1;
    var sec := Last(c.sections);
    var sec' := sec.(articles := sec.articles + [a]);
    var c' := c.(sections := c.sections[m := sec']);
    assert r == s.chapters[n := c'];
    assert ChapterTitlesOk(c, n == 0);
    assert SectionTitlesOk(sec, c.title);
    assert SectionTitlesOk(sec', c.title);
    forall j | 0 <= j < |c'.sections| ensures SectionTitlesOk(c'.sections[j], c'.title) {
      if j < m {
        assert c'.sections[j] == c.sections[j];
      }
    }
    assert ChapterTitlesOk(c', n == 0);
    forall i | 0 <= i < |r| ensures ChapterTitlesOk(r[i], i == 0) {
      if i < n {
        assert r[i] == s.chapters[i];
      }
    }
  }

  lemma PlaceInChapterTitles(s: State, a: Article)
    requires Shape(s) && !s.inSection && TitlesOk(s.chapters)
    requires a.chapter == CurrentChapterTitle(s) && a.section == CurrentSectionTitle(s)
    ensures TitlesOk(Place(s, a))
  {
    var r := Place(s, a);
    if s.chapters != [] {
      var n := |s.chapters| - 1;
      var c := Last(s.chapters);
      var c' := c.(articles := c.articles + [a]);
      assert r == s.chapters[n := c'];
      assert ChapterTitlesOk(c, n == 0);
      assert ChapterTitlesOk(c', n == 0);
      forall i | 0 <= i < |r| ensures ChapterTitlesOk(r[i], i == 0) {
        if i < n {
          assert r[i] == s.chapters[i];
        }
      }
    } else {
      assert r == [Chapter([], [], [a])];
      assert ChapterTitlesOk(r[0], true);
    }
  }

  lemma StepTitles(s: State, b: Block, summary: bool)
    requires Shape(s) && TitlesOk(s.chapters)
    ensures TitlesOk(Step(s, b, summary).chapters)
  {
    match b
    case ChapterHeading(t) => AddChapterTitles(s.chapters, t);
    case SectionHeading(t) => AddSectionTitles(s.chapters, t);
    case ArticleRow(name, noText, raw, divCount) =>
      var a := MakeArticle(s, name, noText, raw, divCount, summary);
      if s.inSection {
        PlaceInSectionTitles(s, a);
      } else {
        PlaceInChapterTitles(s, a);
      }
    case RowMissingParts =>
    case Other =>
  }

  lemma StepInv(s: State, b: Block, summary: bool)
    requires Inv(s)
    ensures Inv(Step(s, b, summary))
  {
    StepFlatten(s, b, summary);
    StepTitles(s, b, summary);
  }

  /** The fold keeps the tree equal to the flat list and every title consistent. */
  lemma {:induction false} RunInv(bs: seq<Block>, s: State, summary: bool, maxArticles: int)
    requires Inv(s)
    ensures Inv(Run(bs, s, summary, maxArticles))
    decreases |bs|
  {
    if bs != [] && !Capped(s, maxArticles) {
      StepInv(s, bs[0], summary);
      RunInv(bs[1..], Step(s, bs[0], summary), summary, maxArticles);
    }
  }

  // ---- Which articles are read ----

  /** An article without the titles it was filed under. */
  datatype ArticleCore = ArticleCore(flno: string, noText: string, textLines: seq<string>, truncated: bool)

  function Core(a: Article): ArticleCore {
    ArticleCore(a.flno, a.noText, a.textLines, a.truncated)
  }

  function Cores(xs: seq<Article>): (r: seq<ArticleCore>)
    ensures |r| == |xs| && forall i :: 0 <= i < |xs| ==> r[i] == Core(xs[i])
  {
    seq(|xs|, i requires 0 <= i < |xs| => Core(xs[i]))
  }

  /** What each accepted row of `bs` yields, in document order. */
  /** The article a child yields, if it is an article row. */
  function RowCore(b: Block, summary: bool): (r: seq<ArticleCore>)
    ensures |r| <= 1
  {
    match b
    case ArticleRow(name, noText, raw, divCount) =>
      var lines := ArticleLines(raw, summary);
      [ArticleCore(Strip(name), noText, lines, summary && divCount > |lines|)]
    case _ => []
  }

  /** The articles of all article rows, in document order. */
  function RowCores(bs: seq<Block>, summary: bool): seq<ArticleCore>
    decreases |bs|
  {
    if bs == [] then [] else RowCore(bs[0], summary) + RowCores(bs[1..], summary)
  }

  function UpToCap(rows: seq<ArticleCore>, flat: seq<Article>, maxArticles: int): seq<ArticleCore>
    requires maxArticles > 0 ==> |flat| <= maxArticles
  {
    if maxArticles > 0 then Take(rows, maxArticles - |flat|) else rows
  }

  lemma CoresSnoc(xs: seq<Article>, a: Article)
    ensures Cores(xs + [a]) == Cores(xs) + [Core(a)]
  {
  }

  lemma StepCores(s: State, b: Block, summary: bool)
    requires Shape(s)
    ensures Cores(Step(s, b, summary).flat) == Cores(s.flat) + RowCore(b, summary)
  {
    match b
    case ArticleRow(name, noText, raw, divCount) =>
      var a := MakeArticle(s, name, noText, raw, divCount, summary);
      assert Step(s, b, summary).flat == s.flat + [a];
      CoresSnoc(s.flat, a);
    case ChapterHeading(_) =>
    case SectionHeading(_) =>
    case RowMissingParts =>
    case Other =>
  }

  lemma TakeAppend<T>(xs: seq<T>, ys: seq<T>, k: nat)
    requires |xs| <= k
    ensures Take(xs + ys, k) == xs + Take(ys, k - |xs|)
  {
  }

  /** Filing one row's article below the cap moves it from the rows still to come to the flat list. */
  lemma CoresAdvance(flat: seq<Article>, flat': seq<Article>, head: seq<ArticleCore>, rest: seq<ArticleCore>,
                     maxArticles: int)
    requires |head| <= 1 && Cores(flat') == Cores(flat) + head
    requires maxArticles > 0 ==> |flat| < maxArticles
    ensures maxArticles > 0 ==> |flat'| <= maxArticles
    ensures Cores(flat) + UpToCap(head + rest, flat, maxArticles) == Cores(flat') + UpToCap(rest, flat', maxArticles)
  {
    assert |flat'| == |flat| + |head|;
    if maxArticles > 0 {
      TakeAppend(head, rest, maxArticles - |flat|);
    }
  }

  lemma {:induction false} RunContents(bs: seq<Block>, s: State, summary: bool, maxArticles: int)
    requires Shape(s) && (maxArticles > 0 ==> |s.flat| <= maxArticles)
    ensures var r := Run(bs, s, summary, maxArticles);
            Cores(r.flat) == Cores(s.flat) + UpToCap(RowCores(bs, summary), s.flat, maxArticles)
    decreases |bs|
  {
    if bs == [] || Capped(s, maxArticles) {
      assert Cores(s.flat) + [] == Cores(s.flat);
    } else {
      assert RowCores(bs, summary) == RowCore(bs[0], summary) + RowCores(bs[1..], summary);
      StepCores(s, bs[0], summary);
      CoresAdvance(s.flat, Step(s, bs[0], summary).flat, RowCore(bs[0], summary), RowCores(bs[1..], summary), maxArticles);
      RunContents(bs[1..], Step(s, bs[0], summary), summary, maxArticles);
    }
  }

  // ---- Cap and summary mode ----

  /** A positive cap bounds the number of articles read. */
  lemma {:induction false} RunCap(bs: seq<Block>, s: State, summary: bool, maxArticles: int)
    requires Shape(s) && maxArticles > 0 && |s.flat| <= maxArticles
    ensures |Run(bs, s, summary, maxArticles).flat| <= maxArticles
    decreases |bs|
  {
    if bs != [] && !Capped(s, maxArticles) {
      RunCap(bs[1..], Step(s, bs[0], summary), summary, maxArticles);
    }
  }

  /** In summary mode every article keeps at most its first non-empty line. */
  lemma {:induction false} RunSummary(bs: seq<Block>, s: State, maxArticles: int)
    requires Shape(s) && forall a :: a in s.flat ==> |a.textLines| <= 1
    ensures forall a :: a in Run(bs, s, true, maxArticles).flat ==> |a.textLines| <= 1
    decreases |bs|
  {
    if bs != [] && !Capped(s, maxArticles) {
      RunSummary(bs[1..], Step(s, bs[0], true), maxArticles);
    }
  }

  /** A row lacking its anchor or article box, or any other node, changes nothing. */
  lemma {:induction false} RunSkipsInert(xs: seq<Block>, b: Block, ys: seq<Block>, s: State,
                                         summary: bool, maxArticles: int)
    requires Shape(s) && (b.RowMissingParts? || b.Other?)
    ensures Run(xs + [b] + ys, s, summary, maxArticles) == Run(xs + ys, s, summary, maxArticles)
    decreases |xs|
  {
    if xs == [] {
      assert xs + [b] + ys == [b] + ys && ([b] + ys)[1..] == ys && xs + ys == ys;
    } else if !Capped(s, maxArticles) {
      assert (xs + [b] + ys)[0] == xs[0] && (xs + [b] + ys)[1..] == xs[1..] + [b] + ys;
      assert (xs + ys)[0] == xs[0] && (xs + ys)[1..] == xs[1..] + ys;
      RunSkipsInert(xs[1..], b, ys, Step(s, xs[0], summary), summary, maxArticles);
    }
  }

  /** After a chapter heading the next article is filed under that chapter and no section. */
  lemma TitlesAfterChapter(s: State, t: string, name: string, noText: string, raw: seq<string>,
                           divCount: nat, summary: bool)
    requires Shape(s)
    ensures var a := MakeArticle(Step(s, ChapterHeading(t), summary), name, noText, raw, divCount, summary);
            a.chapter == Some(t) && a.section == None
  {
  }

  /**
   * After a section heading the next article is filed under it, inside the
   * current chapter or, when there is none yet, a chapter titled "".
   */
  lemma TitlesAfterSection(s: State, t: string, name: string, noText: string, raw: seq<string>,
                           divCount: nat, summary: bool)
    requires Shape(s)
    ensures var a := MakeArticle(Step(s, SectionHeading(t), summary), name, noText, raw, divCount, summary);
            a.section == Some(t) &&
            a.chapter == (if s.chapters == [] then Some([]) else Some(Last(s.chapters).title))
  {
    var chs := if s.chapters == [] then [Chapter([], [], [])] else s.chapters;
    var c := Last(chs);
    var c' := c.(sections := c.sections + [Section(t, [])]);
    var s' := Step(s, SectionHeading(t), summary);
    assert s'.chapters == chs[|chs| - 1 := c'];
    assert Last(s'.chapters) == c';
    assert Last(c'.sections) == Section(t, []);
  }

  /**
   * What a successful parse delivers: the tree lists exactly the flat
   * articles in order, every article sits under the titles it records, the
   * flat list holds the accepted rows in document order (the first
   * `max_articles` of them under a positive cap), and summary mode keeps at
   * most one line per article.
   */
  lemma ParseContentSpec(bs: seq<Block>, summary: bool, maxArticles: int)
    ensures var r := ParseContent(Some(bs), summary, maxArticles);
            r.Ok? &&
            Flatten(r.value.chapters) == r.value.flat &&
            TitlesOk(r.value.chapters) &&
            (maxArticles > 0 ==> |r.value.flat| <= maxArticles &&
                                 Cores(r.value.flat) == Take(RowCores(bs, summary), maxArticles)) &&
            (maxArticles <= 0 ==> Cores(r.value.flat) == RowCores(bs, summary)) &&
            (summary ==> forall a :: a in r.value.flat ==> |a.textLines| <= 1)
  {
    assert Flatten([]) == [];
    RunInv(bs, Init, summary, maxArticles);
    RunContents(bs, Init, summary, maxArticles);
    assert Cores([]) == [];
    if maxArticles > 0 {
      RunCap(bs, Init, summary, maxArticles);
    }
    if summary {
      RunSummary(bs, Init, maxArticles);
    }
  }

  // ---- The parser's loops ----

  /** The line loop of an article row, stopping at the second line in summary mode. */
  method CollectLines(raw: seq<string>, summary: bool) returns (lines: seq<string>)
    ensures lines == ArticleLines(raw, summary)
  {
    lines := [];
    var j := 0;
    while j < |raw|
      invariant 0 <= j <= |raw|
      invariant lines == (if summary then Take(Filter(raw[..j], NonEmptyText), 1) else Filter(raw[..j], NonEmptyText))
      invariant summary ==> |lines| <= 1
    {
      assert raw[..j + 1][..j] == raw[..j];
      var txt := raw[j];
      if txt != [] {
        if summary && |lines| >= 1 {
          FilterPrefix(raw, NonEmptyText, j);
          return;
        }
        lines := lines + [txt];
      }
      j := j + 1;
    }
    assert raw[..j] == raw;
  }

  /** `ensure_section`, with the chapter "" it creates when there is no chapter yet. */
  method EnsureSection(chapters: seq<Chapter>, t: string) returns (chs: seq<Chapter>)
    ensures chs == AddSection(chapters, t)
  {
    chs := chapters;
    if chs == [] {
      chs := [Chapter([], [], [])];
    }
    var c := chs[|chs| - 1];
    chs := chs[|chs| - 1 := c.(sections := c.sections + [Section(t, [])])];
  }

  /** Adding an article to the current section, else the current chapter, else a new chapter "". */
  method FileArticle(chapters: seq<Chapter>, ghost flat: seq<Article>, inSection: bool, item: Article)
    returns (chs: seq<Chapter>)
    requires Shape(State(chapters, flat, inSection))
    ensures chs == Place(State(chapters, flat, inSection), item)
  {
    if inSection {
      var c := chapters[|chapters| - 1];
      var sec := c.sections[|c.sections| - 1];
      chs := chapters[|chapters| - 1 := c.(sections := c.sections[|c.sections| - 1 := sec.(articles := sec.articles + [item])])];
    } else if chapters != [] {
      var c := chapters[|chapters| - 1];
      chs := chapters[|chapters| - 1 := c.(articles := c.articles + [item])];
    } else {
      chs := [Chapter([], [], [item])];
    }
  }

  /** The article record of one row: its name, number, lines and the titles it is filed under. */
  method ReadArticleRow(chapters: seq<Chapter>, flat: seq<Article>, inSection: bool, name: string, noText: string,
                        raw: seq<string>, divCount: nat, summaryMode: bool)
    returns (item: Article)
    requires Shape(State(chapters, flat, inSection))
    ensures item == MakeArticle(State(chapters, flat, inSection), name, noText, raw, divCount, summaryMode)
  {
    var lines := CollectLines(raw, summaryMode);
    item := Article(Strip(name), noText, lines,
                    if chapters != [] then Some(chapters[|chapters| - 1].title) else None,
                    if inSection then Some(Last(chapters[|chapters| - 1].sections).title) else None,
                    summaryMode && divCount > |lines|);
  }

  /** The body of the loop for one child: a chapter heading, a section heading, an article row or anything else. */
  method StepBlock(chapters: seq<Chapter>, flat: seq<Article>, inSection: bool, b: Block, summaryMode: bool)
    returns (chs: seq<Chapter>, fl: seq<Article>, ins: bool)
    requires Shape(State(chapters, flat, inSection))
    ensures State(chs, fl, ins) == Step(State(chapters, flat, inSection), b, summaryMode)
    ensures |fl| == |flat| + (if b.ArticleRow? then 1 else 0)
  {
    chs, fl, ins := chapters, flat, inSection;
    match b {
      case ChapterHeading(t) =>
        chs := chapters + [Chapter(t, [], [])];
        ins := false;
      case SectionHeading(t) =>
        chs := EnsureSection(chapters, t);
        ins := true;
      case ArticleRow(name, noText, raw, divCount) =>
        var item := ReadArticleRow(chapters, flat, inSection, name, noText, raw, divCount, summaryMode);
        fl := flat + [item];
        chs := FileArticle(chapters, flat, inSection, item);
      case RowMissingParts =>
      case Other =>
    }
  }

  /** One iteration of the loop, when the cap does not stop it. */
  lemma RunAt(bs: seq<Block>, i: nat, s: State, summary: bool, maxArticles: int)
    requires i < |bs| && Shape(s) && !Capped(s, maxArticles)
    ensures Run(bs[i..], s, summary, maxArticles) == Run(bs[i + 1..], Step(s, bs[i], summary), summary, maxArticles)
  {
    assert bs[i..][0] == bs[i] && bs[i..][1..] == bs[i + 1..];
  }

  /** `parse_law_content`: the loop over the container's children. */
  method ParseLawContent(root: Option<seq<Block>>, summaryMode: bool, maxArticles: int)
    returns (r: Result<Parsed, string>)
    ensures r == ParseContent(root, summaryMode, maxArticles)
  {
    if root.None? {
      return Err("content block not found");
    }
    var bs := root.value;
    var chapters: seq<Chapter> := [];
    var flat: seq<Article> := [];
    var inSection := false;
    var articleCount := 0;
    var i := 0;
    while i < |bs|
      invariant 0 <= i <= |bs|
      invariant articleCount == |flat|
      invariant Shape(State(chapters, flat, inSection))
      invariant Run(bs, Init, summaryMode, maxArticles)
                == Run(bs[i..], State(chapters, flat, inSection), summaryMode, maxArticles)
    {
      if maxArticles > 0 && articleCount >= maxArticles {
        break;
      }
      RunAt(bs, i, State(chapters, flat, inSection), summaryMode, maxArticles);
      chapters, flat, inSection := StepBlock(chapters, flat, inSection, bs[i], summaryMode);
      if bs[i].ArticleRow? {
        articleCount := articleCount + 1;
      }
      i := i + 1;
    }
    r := Ok(Parsed(chapters, flat,
                   if summaryMode || maxArticles > 0 then Some(Meta(articleCount, summaryMode, maxArticles)) else None));
  }
}
