/**
 * `extract_references` exactly as script/get_signal_txt.py writes it. Its
 * step 6 loops over `REF_PATTERNS[5]`, which is the single-item pattern
 * `第X條第Y目`, and its step 7 over `REF_PATTERNS[6]`, which is the bare
 * `第X條` pattern; the 前條 pattern, `REF_PATTERNS[7]`, is never used.
 *
 * So step 6 skips every match whose hit names a level and would raise
 * IndexError (`m.group("art_only")` on a pattern without that group) on any
 * other; since the single-item pattern's hit always ends in 目, nothing
 * is ever produced there. Step 7 turns every bare `第X條` into a 前條
 * reference without index whenever the preceding article is known.
 */
module ReferencesAsWritten {
  import opened Wrappers
  import opened Text
  import opened Seqs
  import opened Dedup
  import opened Numerals
  import opened ArticleIds
  import opened References

  /** Step 6: a `REF_PATTERNS[5]` match is skipped, or fails with IndexError. */
  function Step6(m: SingleMatch): (r: Result<seq<Reference>, string>)
    ensures r.Ok? ==> r.value == []
    ensures r.Ok? <==> NamesLevel(m.hit)
  {
    if NamesLevel(m.hit) then Ok([]) else Err("IndexError: no such group")
  }

  /** Step 7: a `REF_PATTERNS[6]` match becomes an unqualified 前條 reference. */
  function Step7(prevTarget: Option<string>, m: BareMatch): (r: seq<Reference>)
    ensures prevTarget.None? ==> r == []
    ensures prevTarget.Some? ==> r == [Reference(PrevRef, prevTarget.value, None, None, None, m.hit)]
  {
    if prevTarget.None? then [] else [Reference(PrevRef, prevTarget.value, None, None, None, m.hit)]
  }

  function Step6All(ms: seq<SingleMatch>): Result<seq<Reference>, string> {
    if ms == [] then Ok([])
    else if Step6(ms[0]).Err? then Step6(ms[0])
    else Step6All(ms[1..])
  }

  function Step7All(prevTarget: Option<string>, ms: seq<BareMatch>): seq<Reference> {
    if ms == [] then [] else Step7(prevTarget, ms[0]) + Step7All(prevTarget, ms[1..])
  }

  /** The references one line offers as written, or the exception it raises. */
  function LineCandidatesAsWritten(prevTarget: Option<string>, lm: LineMatches): Result<seq<Reference>, string> {
    match Step6All(lm.mus)
    case Err(e) => Err(e)
    case Ok(_) => Ok(LevelCandidates(lm) + Step7All(prevTarget, lm.bares))
  }

  function CandidatesAsWritten(prevTarget: Option<string>, lines: seq<LineMatches>): Result<seq<Reference>, string>
    decreases |lines|
  {
    if lines == [] then Ok([])
    else
      match CandidatesAsWritten(prevTarget, lines[..|lines| - 1])
      case Err(e) => Err(e)
      case Ok(before) =>
        match LineCandidatesAsWritten(prevTarget, lines[|lines| - 1])
        case Err(e) => Err(e)
        case Ok(cands) => Ok(before + cands)
  }

  /** What `extract_references(main_flno, lines)` returns as written, or the exception it raises. */
  function ExtractedAsWritten(mainFlno: string, lines: seq<LineMatches>): Result<seq<Reference>, string> {
    match CandidatesAsWritten(ComputePrevFlno(mainFlno), lines)
    case Err(e) => Err(e)
    case Ok(c) => Ok(KeepFirst(c, KeyOf))
  }

  /** What the single-item pattern guarantees: every hit it reports contains 目. */
  predicate MuHitsMarked(lm: LineMatches) {
    forall m :: m in lm.mus ==> '目' in m.hit
  }

  lemma {:induction false} Step6AllOk(ms: seq<SingleMatch>)
    requires forall m :: m in ms ==> '目' in m.hit
    ensures Step6All(ms) == Ok([])
    decreases |ms|
  {
    if ms != [] {
      assert ms[0] in ms;
      assert forall m :: m in ms[1..] ==> m in ms;
      Step6AllOk(ms[1..]);
    }
  }

  lemma {:induction false} AsWrittenCandidatesOk(p: Option<string>, lines: seq<LineMatches>)
    requires forall i :: 0 <= i < |lines| ==> MuHitsMarked(lines[i])
    ensures CandidatesAsWritten(p, lines).Ok?
    decreases |lines|
  {
    if lines != [] {
      var n := |lines| - 1;
      assert forall i :: 0 <= i < n ==> lines[..n][i] == lines[i];
      AsWrittenCandidatesOk(p, lines[..n]);
      Step6AllOk(lines[n].mus);
    }
  }

  /**
   * On matches the patterns can actually report, the written code never
   * raises: the IndexError of step 6 is unreachable.
   */
  lemma AsWrittenNeverFails(mainFlno: string, lines: seq<LineMatches>)
    requires forall i :: 0 <= i < |lines| ==> MuHitsMarked(lines[i])
    ensures ExtractedAsWritten(mainFlno, lines).Ok?
  {
    AsWrittenCandidatesOk(ComputePrevFlno(mainFlno), lines);
  }

  /** As written, step 7 yields only unqualified 前條 references. */
  lemma {:induction false} Step7AllUnqualified(p: Option<string>, ms: seq<BareMatch>)
    ensures forall r :: r in Step7All(p, ms) ==> r.kind == PrevRef && r.item.None? && r.kuan.None? && r.mu.None?
    decreases |ms|
  {
    if ms != [] {
      Step7AllUnqualified(p, ms[1..]);
    }
  }

  lemma NoLevelCandidates(lm: LineMatches)
    requires lm.itemRanges == [] && lm.items == [] && lm.kuanRanges == [] && lm.kuans == [] && lm.muRanges == []
    ensures LevelCandidates(lm) == []
  {
    assert FlatMap(lm.itemRanges, ItemRangeCands) == [];
    assert FlatMap(lm.items, ItemCands) == [];
    assert FlatMap(lm.kuanRanges, KuanRangeCands) == [];
    assert FlatMap(lm.kuans, KuanCands) == [];
    assert FlatMap(lm.muRanges, MuRangeCands) == [];
  }

  function BareLine(b: BareMatch): LineMatches {
    LineMatches([], [], [], [], [], [], [b], [])
  }

  function PrevLine(m: PrevMatch): LineMatches {
    LineMatches([], [], [], [], [], [], [], [m])
  }

  /** As written, a line holding only a bare `第X條` yields a 前條 reference. */
  lemma BareLineAsWritten(p: Option<string>, b: BareMatch)
    requires p.Some?
    ensures CandidatesAsWritten(p, [BareLine(b)]) == Ok([Reference(PrevRef, p.value, None, None, None, b.hit)])
  {
    var lm := BareLine(b);
    assert [lm][..0] == [];
    assert CandidatesAsWritten(p, [lm][..0]) == Ok([]);
    var x := [Reference(PrevRef, p.value, None, None, None, b.hit)];
    assert Step7All(p, lm.bares) == x + [];
    NoLevelCandidates(lm);
    assert Step6All(lm.mus) == Ok([]);
    assert LineCandidatesAsWritten(p, lm) == Ok([] + (x + []));
    assert [] + ([] + (x + [])) == x;
  }

  /** As intended, the same line yields the whole of article X. */
  lemma BareLineIntended(p: Option<string>, b: BareMatch)
    requires !NamesLevel(b.hit) && NormalizeArt(b.art).Some?
    ensures Candidates(p, [BareLine(b)]) == [Reference(ExplicitRef, NormalizeArt(b.art).value, None, None, None, b.hit)]
  {
    var lm := BareLine(b);
    assert [lm][..0] == [];
    assert Candidates(p, [lm][..0]) == [];
    assert FlatMap(lm.bares, BareCands) == BareCands(b) + FlatMap(lm.bares[1..], BareCands);
    assert FlatMap(lm.mus, MuCands) == [];
    NoLevelCandidates(lm);
  }

  /** As written, a line holding only 前條 yields nothing. */
  lemma PrevLineAsWritten(p: Option<string>, m: PrevMatch)
    ensures CandidatesAsWritten(p, [PrevLine(m)]) == Ok([])
  {
    var lm := PrevLine(m);
    assert [lm][..0] == [];
    assert CandidatesAsWritten(p, [lm][..0]) == Ok([]);
    NoLevelCandidates(lm);
    assert Step6All(lm.mus) == Ok([]);
  }

  lemma DecimalSpellings()
    ensures NatToString(16) == "16" && NatToString(15) == "15" && Pred(16) == 15
  {
  }

  lemma PrevOfSixteen()
    ensures ComputePrevFlno("16") == Some("15")
  {
    DecimalSpellings();
    PrevOfPlain(16);
  }

  lemma NotALevel()
    ensures !NamesLevel("第八條")
  {
    var h := "第八條";
    assert h == ['第', '八', '條'];
  }

  /** "第八條" in article 16: the written code yields 前條 → 15 ... */
  lemma BareArticleBecomesPrev()
    ensures ExtractedAsWritten("16", [BareLine(BareMatch("八", "第八條"))])
            == Ok([Reference(PrevRef, "15", None, None, None, "第八條")])
  {
    PrevOfSixteen();
    BareLineAsWritten(Some("15"), BareMatch("八", "第八條"));
    NoDupKeepsAll([Reference(PrevRef, "15", None, None, None, "第八條")], KeyOf);
  }

  /** ... where article 8 is meant. */
  lemma BareArticleIntended()
    ensures ExtractedReferences("16", [BareLine(BareMatch("八", "第八條"))])
            == [Reference(ExplicitRef, "8", None, None, None, "第八條")]
  {
    PrevOfSixteen();
    NormalizeArtEight();
    NotALevel();
    BareLineIntended(Some("15"), BareMatch("八", "第八條"));
    NoDupKeepsAll([Reference(ExplicitRef, "8", None, None, None, "第八條")], KeyOf);
  }

  /** "依前條規定" in article 16: the written code yields nothing ... */
  lemma PrevPhraseIgnored()
    ensures ExtractedAsWritten("16", [PrevLine(PrevMatch(None, "前條"))]) == Ok([])
  {
    PrevOfSixteen();
    PrevLineAsWritten(Some("15"), PrevMatch(None, "前條"));
  }

  /** ... where 前條 → 15 is meant. */
  lemma PrevPhraseIntended()
    ensures ExtractedReferences("16", [PrevLine(PrevMatch(None, "前條"))])
            == [Reference(PrevRef, "15", None, None, None, "前條")]
  {
    DecimalSpellings();
    PrevInPlainArticle(16, "前條");
  }

  /**
   * A line holding `第X條第Y目`: the single-item pattern matches the whole
   * phrase, and the bare-article pattern matches its `第X條` prefix.
   */
  function ItemLine(m: SingleMatch, b: BareMatch): LineMatches {
    LineMatches([], [], [], [], [], [m], [b], [])
  }

  /** As written, the single-item match is dropped and the bare prefix becomes 前條 ... */
  lemma SingleItemDropped(p: Option<string>, m: SingleMatch, b: BareMatch)
    requires '目' in m.hit && p.Some?
    ensures CandidatesAsWritten(p, [ItemLine(m, b)]) == Ok([Reference(PrevRef, p.value, None, None, None, b.hit)])
  {
    var lm := ItemLine(m, b);
    assert [lm][..0] == [];
    assert CandidatesAsWritten(p, [lm][..0]) == Ok([]);
    NoLevelCandidates(lm);
    Step6AllOk(lm.mus);
    var x := [Reference(PrevRef, p.value, None, None, None, b.hit)];
    Step7Single(p, b);
    assert LineCandidatesAsWritten(p, lm) == Ok([] + x);
    assert [] + ([] + x) == x;
  }

  lemma Step7Single(p: Option<string>, b: BareMatch)
    requires p.Some?
    ensures Step7All(p, [b]) == [Reference(PrevRef, p.value, None, None, None, b.hit)]
  {
    assert Step7All(p, [b]) == Step7(p, b) + Step7All(p, []);
  }

  lemma ItemLineCandidates(p: Option<string>, m: SingleMatch, b: BareMatch)
    ensures Candidates(p, [ItemLine(m, b)]) == MuCands(m) + BareCands(b)
  {
    var lm := ItemLine(m, b);
    assert [lm][..0] == [];
    assert Candidates(p, [lm]) == Candidates(p, []) + LineCandidates(p, lm);
    ItemLineLine(p, m, b);
  }

  lemma ItemLineLine(p: Option<string>, m: SingleMatch, b: BareMatch)
    ensures LineCandidates(p, ItemLine(m, b)) == MuCands(m) + BareCands(b)
  {
    var lm := ItemLine(m, b);
    MusAndBaresOnly(p, lm);
    FlatMapSingleton(m, MuCands);
    FlatMapSingleton(b, BareCands);
  }

  lemma MusAndBaresOnly(p: Option<string>, lm: LineMatches)
    requires lm.itemRanges == [] && lm.items == [] && lm.kuanRanges == [] && lm.kuans == [] && lm.muRanges == []
    requires lm.prevs == []
    ensures LineCandidates(p, lm) == FlatMap(lm.mus, MuCands) + FlatMap(lm.bares, BareCands)
  {
    NoLevelCandidates(lm);
    assert PrevRefs(p, lm.prevs) == [];
    DropEmptyEnds(LevelCandidates(lm), FlatMap(lm.mus, MuCands), FlatMap(lm.bares, BareCands), PrevRefs(p, lm.prevs));
  }

  lemma DropEmptyEnds<T>(a: seq<T>, b: seq<T>, c: seq<T>, d: seq<T>)
    requires a == [] && d == []
    ensures a + b + c + d == b + c
  {
  }

  /** ... where the intended code yields item Y of article X, then the whole of article X. */
  lemma SingleItemIntended(p: Option<string>, m: SingleMatch, b: BareMatch)
    requires NormalizeArt(m.art).Some? && Truthy(ZhValue(m.num))
    requires !NamesLevel(b.hit) && NormalizeArt(b.art).Some?
    ensures Candidates(p, [ItemLine(m, b)])
            == [Reference(ExplicitRef, NormalizeArt(m.art).value, None, None, ZhValue(m.num), m.hit),
                Reference(ExplicitRef, NormalizeArt(b.art).value, None, None, None, b.hit)]
  {
    ItemLineCandidates(p, m, b);
    MuCandsOf(m);
    BareCandsOf(b);
  }

  lemma MuCandsOf(m: SingleMatch)
    requires NormalizeArt(m.art).Some? && Truthy(ZhValue(m.num))
    ensures MuCands(m) == [Reference(ExplicitRef, NormalizeArt(m.art).value, None, None, ZhValue(m.num), m.hit)]
  {
  }

  lemma BareCandsOf(b: BareMatch)
    requires !NamesLevel(b.hit) && NormalizeArt(b.art).Some?
    ensures BareCands(b) == [Reference(ExplicitRef, NormalizeArt(b.art).value, None, None, None, b.hit)]
  {
  }

  lemma SpelledFiveTwo()
    ensures ZhNumeral(5) == "五" && NatToString(5) == "5" && ZhNumeral(2) == "二"
  {
  }

  lemma FiveAndTwo()
    ensures NormalizeArt("五") == Some("5") && ZhValue("二") == Some(2)
  {
    SpelledFiveTwo();
    NormalizeArtOfNumeral(5);
    ZhNumeralRoundTrip(2);
  }

  lemma NoLevelInFive()
    ensures !NamesLevel("第五條")
  {
    var h := "第五條";
    assert h == ['第', '五', '條'];
  }

  /** "第五條第二目" in article 16: the written code yields only 前條 → 15 ... */
  lemma ItemOfArticleBecomesPrev()
    ensures ExtractedAsWritten("16", [ItemLine(SingleMatch("五", "二", "第五條第二目"), BareMatch("五", "第五條"))])
            == Ok([Reference(PrevRef, "15", None, None, None, "第五條")])
  {
    PrevOfSixteen();
    var h := "第五條第二目";
    assert h[5] == '目';
    SingleItemDropped(Some("15"), SingleMatch("五", "二", h), BareMatch("五", "第五條"));
    NoDupKeepsAll([Reference(PrevRef, "15", None, None, None, "第五條")], KeyOf);
  }

  /** ... where item 2 of article 5 and article 5 itself are meant. */
  lemma ItemOfArticleIntended()
    ensures ExtractedReferences("16", [ItemLine(SingleMatch("五", "二", "第五條第二目"), BareMatch("五", "第五條"))])
            == [Reference(ExplicitRef, "5", None, None, Some(2), "第五條第二目"),
                Reference(ExplicitRef, "5", None, None, None, "第五條")]
  {
    FiveAndTwo();
    NoLevelInFive();
    ItemLineExtracted("16", SingleMatch("五", "二", "第五條第二目"), BareMatch("五", "第五條"));
  }

  lemma ItemLineExtracted(f: string, m: SingleMatch, b: BareMatch)
    requires NormalizeArt(m.art).Some? && Truthy(ZhValue(m.num))
    requires !NamesLevel(b.hit) && NormalizeArt(b.art).Some?
    ensures ExtractedReferences(f, [ItemLine(m, b)])
            == [Reference(ExplicitRef, NormalizeArt(m.art).value, None, None, ZhValue(m.num), m.hit),
                Reference(ExplicitRef, NormalizeArt(b.art).value, None, None, None, b.hit)]
  {
    SingleItemIntended(ComputePrevFlno(f), m, b);
    TwoKeysKept(Reference(ExplicitRef, NormalizeArt(m.art).value, None, None, ZhValue(m.num), m.hit),
                Reference(ExplicitRef, NormalizeArt(b.art).value, None, None, None, b.hit));
  }

  lemma TwoKeysKept(x: Reference, y: Reference)
    requires KeyOf(x) != KeyOf(y)
    ensures KeepFirst([x, y], KeyOf) == [x, y]
  {
    NoDupKeepsAll([x, y], KeyOf);
  }
}
