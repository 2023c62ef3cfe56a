/**
 * `extract_references` of script/get_signal_txt.py, with the reference
 * patterns applied in their list order, one step per pattern: paragraph
 * ranges, paragraphs, subparagraph ranges, subparagraphs, item ranges,
 * items, bare articles, then 前條. The numbered comments skip the items
 * step; this module includes it. (The code as written indexes the pattern
 * list off by one from step 6 on; ReferencesAsWritten models that version.)
 *
 * Regular-expression matching is not modelled: each line is given as the
 * matches every pattern finds in it, in `finditer` order, with the text of
 * each named group and of the whole match (`hit`).
 */
module References {
  import opened Wrappers
  import opened Text
  import opened Seqs
  import opened Dedup
  import opened Numerals
  import opened ArticleIds

  datatype Kind = ExplicitRef | PrevRef
  datatype Level = ItemLevel | KuanLevel | MuLevel

  /** One extracted reference: `{kind, flno, item, kuan, mu, hit}`. */
  datatype Reference = Reference(kind: Kind, flno: string, item: Option<nat>, kuan: Option<nat>, mu: Option<nat>, hit: string)

  /** The de-duplication key `(kind, flno, item, kuan, mu)`. */
  datatype RefKey = RefKey(kind: Kind, flno: string, item: Option<nat>, kuan: Option<nat>, mu: Option<nat>)

  function KeyOf(r: Reference): RefKey {
    RefKey(r.kind, r.flno, r.item, r.kuan, r.mu)
  }

  /** A match of `第X條第Y項至第Z項` (or 款, 目): the article, start and end captures. */
  datatype RangeMatch = RangeMatch(art: string, start: string, end: string, hit: string)
  /** A match of `第X條第Y項` (or 款, 目). */
  datatype SingleMatch = SingleMatch(art: string, num: string, hit: string)
  /** A match of `第X條`. */
  datatype BareMatch = BareMatch(art: string, hit: string)
  /** The optional `第Z項|款|目` after 前條. */
  datatype Qualifier = Qualifier(num: string, level: Level)
  /** A match of `前條(第Z項|款|目)?`. */
  datatype PrevMatch = PrevMatch(qualifier: Option<Qualifier>, hit: string)

  /** The matches of the eight reference patterns on one line, in pattern order. */
  datatype LineMatches = LineMatches(
    itemRanges: seq<RangeMatch>, items: seq<SingleMatch>,
    kuanRanges: seq<RangeMatch>, kuans: seq<SingleMatch>,
    muRanges: seq<RangeMatch>, mus: seq<SingleMatch>,
    bares: seq<BareMatch>, prevs: seq<PrevMatch>)

  /** Python truthiness of an `Optional[int]`: present and non-zero. */
  predicate Truthy(v: Option<nat>) { v.Some? && v.value != 0 }

  /** A reference with index `n` at `level` and no index at the other two levels. */
  function Indexed(kind: Kind, flno: string, level: Level, n: Option<nat>, hit: string): Reference {
    Reference(kind, flno,
              if level == ItemLevel then n else None,
              if level == KuanLevel then n else None,
              if level == MuLevel then n else None,
              hit)
  }

  /** The index a reference carries at `level`. */
  function IndexAt(r: Reference, level: Level): Option<nat> {
    match level
    case ItemLevel => r.item
    case KuanLevel => r.kuan
    case MuLevel => r.mu
  }

  /** At most one of item, kuan and mu is set. */
  predicate AtMostOneLevel(r: Reference) {
    (r.item.Some? ==> r.kuan.None? && r.mu.None?) && (r.kuan.Some? ==> r.mu.None?)
  }

  /**
   * A range `第X條第Y…至第Z…` expands to one reference per index from Y to
   * Z when both ends are read, Y <= Z and the range spans at most `cap`;
   * otherwise it yields the single index Y, or nothing when X or Y is unread.
   */
  function RangeCands(level: Level, cap: nat, m: RangeMatch): seq<Reference> {
    RangeRefs(level, cap, NormalizeArt(m.art), ZhValue(m.start), ZhValue(m.end), m.hit)
  }

  /** The references of a range once its article and ends are read. */
  function RangeRefs(level: Level, cap: nat, art: Option<string>, y: Option<nat>, z: Option<nat>, hit: string): (r: seq<Reference>)
    ensures |r| <= cap + 1
  {
    if art.Some? && Truthy(y) && Truthy(z) && y.value <= z.value && z.value - y.value <= cap then
      seq(z.value - y.value + 1, i requires 0 <= i => Indexed(ExplicitRef, art.value, level, Some((y.value + i) as nat), hit))
    else if art.Some? && Truthy(y) then [Indexed(ExplicitRef, art.value, level, y, hit)]
    else []
  }

  /** A single `第X條第Y…` yields index Y of article X when both are read. */
  function SingleCands(level: Level, m: SingleMatch): (r: seq<Reference>)
    ensures |r| <= 1
  {
    var art := NormalizeArt(m.art);
    var y := ZhValue(m.num);
    if art.Some? && Truthy(y) then [Indexed(ExplicitRef, art.value, level, y, m.hit)] else []
  }

  /** Whether a hit names a paragraph, subparagraph or item. */
  predicate NamesLevel(hit: string) { '項' in hit || '款' in hit || '目' in hit }

  /** A bare `第X條` yields the whole article X, unless its hit names a level. */
  function BareCands(m: BareMatch): (r: seq<Reference>)
    ensures |r| <= 1
    ensures NamesLevel(m.hit) ==> r == []
  {
    if NamesLevel(m.hit) then []
    else
      match NormalizeArt(m.art)
      case Some(art) => [Reference(ExplicitRef, art, None, None, None, m.hit)]
      case None => []
  }

  /** 前條, optionally with a level, refers to the preceding article when there is one. */
  function PrevCands(prevTarget: Option<string>, m: PrevMatch): (r: seq<Reference>)
    ensures |r| <= 1
    ensures prevTarget.None? ==> r == []
  {
    if prevTarget.None? then []
    else
      match m.qualifier
      case None => [Reference(PrevRef, prevTarget.value, None, None, None, m.hit)]
      case Some(q) => [Indexed(PrevRef, prevTarget.value, q.level, ZhValue(q.num), m.hit)]
  }

  function ItemRangeCands(m: RangeMatch): seq<Reference> { RangeCands(ItemLevel, 30, m) }
  function KuanRangeCands(m: RangeMatch): seq<Reference> { RangeCands(KuanLevel, 50, m) }
  function MuRangeCands(m: RangeMatch): seq<Reference> { RangeCands(MuLevel, 50, m) }
  function ItemCands(m: SingleMatch): seq<Reference> { SingleCands(ItemLevel, m) }
  function KuanCands(m: SingleMatch): seq<Reference> { SingleCands(KuanLevel, m) }
  function MuCands(m: SingleMatch): seq<Reference> { SingleCands(MuLevel, m) }

  function PrevRefs(prevTarget: Option<string>, ms: seq<PrevMatch>): seq<Reference> {
    if ms == [] then [] else PrevCands(prevTarget, ms[0]) + PrevRefs(prevTarget, ms[1..])
  }

  /** Steps 1 to 5: paragraph, subparagraph and item ranges and single paragraphs and subparagraphs. */
  function LevelCandidates(lm: LineMatches): seq<Reference> {
    FlatMap(lm.itemRanges, ItemRangeCands) + FlatMap(lm.items, ItemCands)
    + FlatMap(lm.kuanRanges, KuanRangeCands) + FlatMap(lm.kuans, KuanCands)
    + FlatMap(lm.muRanges, MuRangeCands)
  }

  /** The references one line offers to `add_ref`, in the order they are offered. */
  function LineCandidates(prevTarget: Option<string>, lm: LineMatches): seq<Reference> {
    LevelCandidates(lm) + FlatMap(lm.mus, MuCands) + FlatMap(lm.bares, BareCands) + PrevRefs(prevTarget, lm.prevs)
  }

  /** All references offered by the lines, line after line. */
  function Candidates(prevTarget: Option<string>, lines: seq<LineMatches>): seq<Reference>
    decreases |lines|
  {
    if lines == [] then []
    else Candidates(prevTarget, lines[..|lines| - 1]) + LineCandidates(prevTarget, lines[|lines| - 1])
  }

  lemma CandidatesSnoc(prevTarget: Option<string>, lines: seq<LineMatches>, i: nat)
    requires i < |lines|
    ensures Candidates(prevTarget, lines[..i + 1])
            == Candidates(prevTarget, lines[..i]) + LineCandidates(prevTarget, lines[i])
  {
    assert lines[..i + 1][..i] == lines[..i];
  }

  /** What `extract_references(main_flno, lines)` returns. */
  function ExtractedReferences(mainFlno: string, lines: seq<LineMatches>): seq<Reference> {
    KeepFirst(Candidates(ComputePrevFlno(mainFlno), lines), KeyOf)
  }

  /** The `refs` list and `seen` set that `add_ref` updates. */
  class RefCollector {
    var refs: seq<Reference>
    var seen: set<RefKey>

    ghost predicate Valid()
      reads this
    {
      seen == KeySet(refs, KeyOf)
    }

    constructor ()
      ensures Valid() && refs == []
    {
      refs := [];
      seen := {};
    }

    /** `add_ref`: append `r` unless a reference with the same key was added before. */
    method AddRef(r: Reference)
      requires Valid()
      modifies this
      ensures Valid()
      ensures refs == AddFirst(old(refs), r, KeyOf)
    {
      var key := KeyOf(r);
      if key in seen {
        return;
      }
      KeySetSnoc(refs, KeyOf, r);
      seen := seen + {key};
      refs := refs + [r];
    }

    /** `add_ref` on each of `cands` in turn, after the candidates `done` were added. */
    method AddAll(cands: seq<Reference>, ghost done: seq<Reference>)
      requires Valid() && refs == KeepFirst(done, KeyOf)
      modifies this
      ensures Valid() && refs == KeepFirst(done + cands, KeyOf)
    {
      assert done + cands[..0] == done;
      for j := 0 to |cands|
        invariant Valid()
        invariant refs == KeepFirst(done + cands[..j], KeyOf)
      {
        KeepFirstSnoc(done + cands[..j], KeyOf, cands[j]);
        assert done + cands[..j + 1] == done + cands[..j] + [cands[j]];
        AddRef(cands[j]);
      }
      assert cands[..|cands|] == cands;
    }
  }

  /** `extract_references`: every line's candidates go through `add_ref` in order. */
  method ExtractReferences(mainFlno: string, lines: seq<LineMatches>) returns (refs: seq<Reference>)
    ensures refs == ExtractedReferences(mainFlno, lines)
    ensures NoDupKeys(refs, KeyOf)
  {
    var prevTarget := ComputePrevFlno(mainFlno);
    var c := new RefCollector();
    assert lines[..0] == [];
    for i := 0 to |lines|
      invariant c.Valid()
      invariant c.refs == KeepFirst(Candidates(prevTarget, lines[..i]), KeyOf)
    {
      CandidatesSnoc(prevTarget, lines, i);
      c.AddAll(LineCandidates(prevTarget, lines[i]), Candidates(prevTarget, lines[..i]));
    }
    assert lines[..|lines|] == lines;
    refs := c.refs;
    KeepFirstSpec(Candidates(prevTarget, lines), KeyOf);
  }

  /**
   * A range within the cap becomes the indexes Y, Y+1, …, Z of article X at
   * the range's level, in ascending order, all carrying the range's hit.
   */
  lemma RangeExpansion(level: Level, cap: nat, art: string, y: nat, z: nat, hit: string)
    requires 1 <= y <= z && z - y <= cap
    ensures var r := RangeRefs(level, cap, Some(art), Some(y), Some(z), hit);
            |r| == z - y + 1 &&
            forall i :: 0 <= i < |r| ==>
              r[i].kind == ExplicitRef && r[i].flno == art && r[i].hit == hit &&
              IndexAt(r[i], level) == Some(y + i) && AtMostOneLevel(r[i])
  {
    var r := RangeRefs(level, cap, Some(art), Some(y), Some(z), hit);
    forall i | 0 <= i < |r|
      ensures r[i].kind == ExplicitRef && r[i].flno == art && r[i].hit == hit
      ensures IndexAt(r[i], level) == Some(y + i) && AtMostOneLevel(r[i])
    {
      assert r[i] == Indexed(ExplicitRef, art, level, Some(y + i), hit);
    }
  }

  /** A reversed range, or one wider than the cap, keeps only its first index. */
  lemma RangeBeyondCap(level: Level, cap: nat, art: string, y: nat, z: Option<nat>, hit: string)
    requires y >= 1
    requires z.Some? ==> z.value < y || z.value - y > cap
    ensures RangeRefs(level, cap, Some(art), Some(y), z, hit) == [Indexed(ExplicitRef, art, level, Some(y), hit)]
  {
  }

  /**
   * What every extracted reference satisfies: it sets at most one of item,
   * kuan and mu; an explicit one names an article in `flno` form with
   * non-zero indexes; a 前條 one names the preceding article, which exists.
   */
  predicate WellFormed(prevTarget: Option<string>, r: Reference) {
    AtMostOneLevel(r) &&
    (r.kind == ExplicitRef ==>
       IsArticleId(r.flno) && (r.item.Some? ==> r.item.value != 0)
       && (r.kuan.Some? ==> r.kuan.value != 0) && (r.mu.Some? ==> r.mu.value != 0)) &&
    (r.kind == PrevRef ==> prevTarget == Some(r.flno))
  }

  lemma RangeRefsWellFormed(p: Option<string>, level: Level, cap: nat, art: Option<string>, y: Option<nat>, z: Option<nat>, hit: string)
    requires art.Some? ==> IsArticleId(art.value)
    ensures forall r :: r in RangeRefs(level, cap, art, y, z, hit) ==> WellFormed(p, r)
  {
    var rs := RangeRefs(level, cap, art, y, z, hit);
    forall r | r in rs ensures WellFormed(p, r) {
      var i :| 0 <= i < |rs| && rs[i] == r;
      if art.Some? && Truthy(y) && Truthy(z) && y.value <= z.value && z.value - y.value <= cap {
        assert r == Indexed(ExplicitRef, art.value, level, Some(y.value + i), hit);
      }
    }
  }

  lemma RangeCandsWellFormed(p: Option<string>, level: Level, cap: nat, m: RangeMatch)
    ensures forall r :: r in RangeCands(level, cap, m) ==> WellFormed(p, r)
  {
    var art := NormalizeArt(m.art);
    RangeRefsWellFormed(p, level, cap, art, ZhValue(m.start), ZhValue(m.end), m.hit);
  }

  lemma SingleCandsWellFormed(p: Option<string>, level: Level, m: SingleMatch)
    ensures forall r :: r in SingleCands(level, m) ==> WellFormed(p, r)
  {
    var art := NormalizeArt(m.art);
    assert art.Some? ==> IsArticleId(art.value);
  }

  lemma PrevCandsWellFormed(p: Option<string>, m: PrevMatch)
    ensures forall r :: r in PrevCands(p, m) ==> WellFormed(p, r)
  {
  }

  lemma {:induction false} PrevRefsWellFormed(p: Option<string>, ms: seq<PrevMatch>)
    ensures forall r :: r in PrevRefs(p, ms) ==> WellFormed(p, r)
    decreases |ms|
  {
    if ms != [] {
      assert PrevRefs(p, ms) == PrevCands(p, ms[0]) + PrevRefs(p, ms[1..]);
      PrevCandsWellFormed(p, ms[0]);
      PrevRefsWellFormed(p, ms[1..]);
    }
  }

  lemma RangesWellFormed(p: Option<string>, ms: seq<RangeMatch>, f: RangeMatch -> seq<Reference>, level: Level, cap: nat)
    requires forall m :: f(m) == RangeCands(level, cap, m)
    ensures forall r :: r in FlatMap(ms, f) ==> WellFormed(p, r)
  {
    forall r | r in FlatMap(ms, f) ensures WellFormed(p, r) {
      FlatMapOrigin(ms, f, r);
      var m :| m in ms && r in f(m);
      RangeCandsWellFormed(p, level, cap, m);
    }
  }

  lemma SinglesWellFormed(p: Option<string>, ms: seq<SingleMatch>, f: SingleMatch -> seq<Reference>, level: Level)
    requires forall m :: f(m) == SingleCands(level, m)
    ensures forall r :: r in FlatMap(ms, f) ==> WellFormed(p, r)
  {
    forall r | r in FlatMap(ms, f) ensures WellFormed(p, r) {
      FlatMapOrigin(ms, f, r);
      var m :| m in ms && r in f(m);
      SingleCandsWellFormed(p, level, m);
    }
  }

  lemma BaresWellFormed(p: Option<string>, ms: seq<BareMatch>)
    ensures forall r :: r in FlatMap(ms, BareCands) ==> WellFormed(p, r)
  {
    forall r | r in FlatMap(ms, BareCands) ensures WellFormed(p, r) {
      FlatMapOrigin(ms, BareCands, r);
    }
  }

  lemma LevelCandidatesWellFormed(p: Option<string>, lm: LineMatches)
    ensures forall r :: r in LevelCandidates(lm) ==> WellFormed(p, r)
  {
    RangesWellFormed(p, lm.itemRanges, ItemRangeCands, ItemLevel, 30);
    SinglesWellFormed(p, lm.items, ItemCands, ItemLevel);
    RangesWellFormed(p, lm.kuanRanges, KuanRangeCands, KuanLevel, 50);
    SinglesWellFormed(p, lm.kuans, KuanCands, KuanLevel);
    RangesWellFormed(p, lm.muRanges, MuRangeCands, MuLevel, 50);
  }

  lemma LineCandidatesWellFormed(p: Option<string>, lm: LineMatches)
    ensures forall r :: r in LineCandidates(p, lm) ==> WellFormed(p, r)
  {
    LevelCandidatesWellFormed(p, lm);
    SinglesWellFormed(p, lm.mus, MuCands, MuLevel);
    BaresWellFormed(p, lm.bares);
    PrevRefsWellFormed(p, lm.prevs);
  }

  lemma {:induction false} CandidatesWellFormed(p: Option<string>, lines: seq<LineMatches>)
    ensures forall r :: r in Candidates(p, lines) ==> WellFormed(p, r)
    decreases |lines|
  {
    if lines != [] {
      CandidatesWellFormed(p, lines[..|lines| - 1]);
      LineCandidatesWellFormed(p, lines[|lines| - 1]);
    }
  }

  /**
   * Every extracted reference is well formed; in particular a 前條 reference
   * always names `compute_prev_flno(main_flno)`, and there is none when that
   * is None.
   */
  lemma ExtractedWellFormed(mainFlno: string, lines: seq<LineMatches>)
    ensures forall r :: r in ExtractedReferences(mainFlno, lines) ==> WellFormed(ComputePrevFlno(mainFlno), r)
  {
    var p := ComputePrevFlno(mainFlno);
    CandidatesWellFormed(p, lines);
    KeepFirstSubset(Candidates(p, lines), KeyOf);
  }

  /**
   * The extracted list holds, in order of first appearance, exactly one
   * reference for each distinct key among all candidates.
   */
  lemma ExtractedFirstSeen(mainFlno: string, lines: seq<LineMatches>)
    ensures var c := Candidates(ComputePrevFlno(mainFlno), lines);
            var r := ExtractedReferences(mainFlno, lines);
            r == FirstOccurrences(c, KeyOf, |c|) && NoDupKeys(r, KeyOf) && KeySet(r, KeyOf) == KeySet(c, KeyOf)
  {
    KeepFirstSpec(Candidates(ComputePrevFlno(mainFlno), lines), KeyOf);
  }

  /**
   * A bare `第X條` is skipped only when its own hit names a level, and the
   * bare pattern's hit stops at 條: so a line holding `第X條第Y項` offers
   * both paragraph Y of X and the whole of X.
   */
  lemma BareNextToParagraph(p: Option<string>, a: string, y: string, hit: string, bareHit: string)
    requires NormalizeArt(a).Some? && Truthy(ZhValue(y)) && !NamesLevel(bareHit)
    ensures var lm := LineMatches([], [SingleMatch(a, y, hit)], [], [], [], [], [BareMatch(a, bareHit)], []);
            var art := NormalizeArt(a).value;
            LineCandidates(p, lm) == [Indexed(ExplicitRef, art, ItemLevel, ZhValue(y), hit),
                                      Reference(ExplicitRef, art, None, None, None, bareHit)]
  {
    var lm := LineMatches([], [SingleMatch(a, y, hit)], [], [], [], [], [BareMatch(a, bareHit)], []);
    var art := NormalizeArt(a).value;
    FlatMapSingleton(SingleMatch(a, y, hit), ItemCands);
    FlatMapSingleton(BareMatch(a, bareHit), BareCands);
    assert LevelCandidates(lm) == [Indexed(ExplicitRef, art, ItemLevel, ZhValue(y), hit)];
    assert FlatMap(lm.bares, BareCands) == [Reference(ExplicitRef, art, None, None, None, bareHit)];
  }

  /** 前條 in article M refers to article M - 1 (article 1 to itself). */
  lemma PrevInPlainArticle(m: nat, hit: string)
    ensures var lm := LineMatches([], [], [], [], [], [], [], [PrevMatch(None, hit)]);
            ExtractedReferences(NatToString(m), [lm])
            == [Reference(PrevRef, NatToString(Pred(m)), None, None, None, hit)]
  {
    PrevOfPlain(m);
    var lm := LineMatches([], [], [], [], [], [], [], [PrevMatch(None, hit)]);
    var p := ComputePrevFlno(NatToString(m));
    assert PrevRefs(p, lm.prevs) == PrevCands(p, lm.prevs[0]) + PrevRefs(p, []);
    assert [lm][..0] == [];
    assert LineCandidates(p, lm) == [Reference(PrevRef, NatToString(Pred(m)), None, None, None, hit)];
    var c := Candidates(p, [lm]);
    assert Candidates(p, [lm][..0]) == [];
    assert c == LineCandidates(p, lm);
    NoDupKeepsAll(c, KeyOf);
  }
}
