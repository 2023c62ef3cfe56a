/**
 * Selecting the text of one 項 (paragraph), 款 (subparagraph) or 目 (item)
 * of an article, as `pick_item_text`, `pick_kuan_text` and `pick_mu_text` of
 * script/get_signal_txt.py do. Paragraphs are the lines the site numbers;
 * subparagraphs and items are recognised by how a line starts.
 */
module Pickers {
  import opened Wrappers
  import opened Text
  import opened Seqs

  /** One text line of an article: its text and whether the site shows a number for it. */
  datatype Line = Line(text: string, numbered: bool)

  /** The characters of `[一二三四五六七八九十百]`. */
  predicate IsRefNumeralChar(c: char) {
    c == '一' || c == '二' || c == '三' || c == '四' || c == '五' || c == '六'
    || c == '七' || c == '八' || c == '九' || c == '十' || c == '百'
  }

  /** The length of the longest prefix of `t` whose characters satisfy `p`. */
  function LeadingRun(t: string, p: char -> bool): (n: nat)
    ensures n <= |t|
    ensures forall i :: 0 <= i < n ==> p(t[i])
    ensures n < |t| ==> !p(t[n])
    decreases |t|
  {
    if t == [] || !p(t[0]) then 0 else 1 + LeadingRun(t[1..], p)
  }

  predicate IsFullStop(c: char) { c == '.' || c == '．' }

  /** `\d+[\.．]` at the start of `t`. */
  predicate DigitsThenStop(t: string) {
    var d := LeadingRun(t, IsDigit);
    0 < d < |t| && IsFullStop(t[d])
  }

  /** `KUAN_PREFIX_RE.match(t)`: `[一…百]+、` or `\d+[\.．]` at the start of `t`. */
  predicate KuanPrefix(t: string) {
    var n := LeadingRun(t, IsRefNumeralChar);
    (0 < n < |t| && t[n] == '、') || DigitsThenStop(t)
  }

  predicate IsOpenParen(c: char) { c == '（' || c == '(' }
  predicate IsCloseParen(c: char) { c == ')' || c == '）' }

  /** `MU_PREFIX_RE.match(t)`: `[（(][一…百]+[)）]` or `\d+[\.．]` at the start of `t`. */
  predicate MuPrefix(t: string) {
    (|t| > 0 && IsOpenParen(t[0]) &&
      var n := LeadingRun(t[1..], IsRefNumeralChar);
      0 < n < |t| - 1 && IsCloseParen(t[1..][n]))
    || DigitsThenStop(t)
  }

  /**
   * The regular expression's own reading of `[一…百]+、`: some non-empty
   * prefix of numeral characters followed by 、. Backtracking cannot find
   * any other split, since 、 is not a numeral character.
   */
  lemma KuanNumeralPrefixIff(t: string)
    ensures (var n := LeadingRun(t, IsRefNumeralChar); 0 < n < |t| && t[n] == '、')
            <==> exists m :: 0 < m < |t| && t[m] == '、' && forall i :: 0 <= i < m ==> IsRefNumeralChar(t[i])
  {
    var n := LeadingRun(t, IsRefNumeralChar);
    if exists m :: 0 < m < |t| && t[m] == '、' && forall i :: 0 <= i < m ==> IsRefNumeralChar(t[i]) {
      var m :| 0 < m < |t| && t[m] == '、' && forall i :: 0 <= i < m ==> IsRefNumeralChar(t[i]);
      assert !IsRefNumeralChar(t[m]);
      assert n == m;
    }
  }

  predicate IsNumbered(l: Line) { l.numbered }
  predicate IsKuanLine(l: Line) { KuanPrefix(l.text) }
  predicate IsMuLine(l: Line) { MuPrefix(l.text) }

  /**
   * `text` is the text of the `idx`-th (1-based) line satisfying `p`, in
   * document order: the line at `j` satisfies `p` and exactly `idx - 1` of
   * the lines before it do.
   */
  ghost predicate IsNthText(lines: seq<Line>, p: Line -> bool, idx: int, text: string) {
    exists j :: 0 <= j < |lines| && p(lines[j]) && |Filter(lines[..j], p)| == idx - 1 && lines[j].text == text
  }

  /**
   * `pick_item_text`: the `idx`-th numbered line; when there are too few
   * numbered lines, the `idx`-th line of all. Defined exactly for
   * `1 <= idx <= |lines|`.
   */
  function PickItemText(lines: seq<Line>, idx: int): (r: Option<string>)
    ensures r.Some? <==> 1 <= idx <= |lines|
  {
    if lines == [] || idx < 1 then None
    else
      var numbered := Filter(lines, IsNumbered);
      if numbered != [] && idx <= |numbered| then Some(numbered[idx - 1].text)
      else if idx <= |lines| then Some(lines[idx - 1].text)
      else None
  }

  /** `pick_kuan_text`: the `idx`-th line opening a 款; defined exactly when there are that many. */
  function PickKuanText(lines: seq<Line>, idx: int): (r: Option<string>)
    ensures r.Some? <==> 1 <= idx <= |Filter(lines, IsKuanLine)|
  {
    if lines == [] || idx < 1 then None
    else
      var kuans := Filter(lines, IsKuanLine);
      if kuans != [] && idx <= |kuans| then Some(kuans[idx - 1].text) else None
  }

  /** `pick_mu_text`: the `idx`-th line opening a 目; defined exactly when there are that many. */
  function PickMuText(lines: seq<Line>, idx: int): (r: Option<string>)
    ensures r.Some? <==> 1 <= idx <= |Filter(lines, IsMuLine)|
  {
    if lines == [] || idx < 1 then None
    else
      var mus := Filter(lines, IsMuLine);
      if mus != [] && idx <= |mus| then Some(mus[idx - 1].text) else None
  }

  lemma NthOfFilter(lines: seq<Line>, p: Line -> bool, idx: int)
    requires 1 <= idx <= |Filter(lines, p)|
    ensures IsNthText(lines, p, idx, Filter(lines, p)[idx - 1].text)
  {
    FilterAt(lines, p, idx - 1);
  }

  /**
   * The paragraph picked is the `idx`-th numbered line when there are at
   * least `idx` numbered lines, and otherwise the `idx`-th line of all.
   */
  lemma PickItemTextSpec(lines: seq<Line>, idx: int)
    requires 1 <= idx <= |lines|
    ensures idx <= |Filter(lines, IsNumbered)| ==> IsNthText(lines, IsNumbered, idx, PickItemText(lines, idx).value)
    ensures idx > |Filter(lines, IsNumbered)| ==> PickItemText(lines, idx) == Some(lines[idx - 1].text)
  {
    if idx <= |Filter(lines, IsNumbered)| {
      NthOfFilter(lines, IsNumbered, idx);
    }
  }

  /** The subparagraph picked is the `idx`-th line that opens a 款, in document order. */
  lemma PickKuanTextSpec(lines: seq<Line>, idx: int)
    requires PickKuanText(lines, idx).Some?
    ensures IsNthText(lines, IsKuanLine, idx, PickKuanText(lines, idx).value)
  {
    NthOfFilter(lines, IsKuanLine, idx);
  }

  /** The item picked is the `idx`-th line that opens a 目, in document order. */
  lemma PickMuTextSpec(lines: seq<Line>, idx: int)
    requires PickMuText(lines, idx).Some?
    ensures IsNthText(lines, IsMuLine, idx, PickMuText(lines, idx).value)
  {
    NthOfFilter(lines, IsMuLine, idx);
  }

  /** When every line is numbered, paragraph `idx` is simply line `idx`. */
  lemma {:induction false} FilterAll(lines: seq<Line>)
    requires forall j :: 0 <= j < |lines| ==> lines[j].numbered
    ensures Filter(lines, IsNumbered) == lines
    decreases |lines|
  {
    if lines != [] {
      FilterAll(lines[..|lines| - 1]);
    }
  }

  lemma PickItemAllNumbered(lines: seq<Line>, idx: int)
    requires forall j :: 0 <= j < |lines| ==> lines[j].numbered
    requires 1 <= idx <= |lines|
    ensures PickItemText(lines, idx) == Some(lines[idx - 1].text)
  {
    FilterAll(lines);
  }
}
