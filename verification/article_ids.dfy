/**
 * Article numbers of script/get_signal_txt.py: `normalize_art`, which turns
 * a captured article number (八, 十二, 16-1) into the site's `flno` form, and
 * `compute_prev_flno`, which finds the article that 前條 ("the preceding
 * article") designates.
 */
module ArticleIds {
  import opened Wrappers
  import opened Text
  import opened Numerals

  /** `re.fullmatch(r"\d+(?:-\d+)?", t)`: digits, optionally a hyphen and more digits. */
  predicate IsArticleId(t: string) {
    |t| > 0 &&
    if '-' in t then
      var k := FirstIndex(t, '-');
      0 < k < |t| - 1 && AllDigits(t[..k]) && AllDigits(t[k + 1..])
    else AllDigits(t)
  }

  lemma ArticleIdNoSpace(t: string)
    requires IsArticleId(t)
    ensures NoSpace(t)
  {
    if '-' in t {
      var k := FirstIndex(t, '-');
      forall i | 0 <= i < |t| ensures !IsSpace(t[i]) {
        if i < k {
          assert t[i] == t[..k][i];
        } else if i > k {
          assert t[i] == t[k + 1..][i - k - 1];
        }
      }
    }
  }

  /**
   * `normalize_art`: a stripped string already in `flno` form is kept,
   * otherwise it is read as a Chinese numeral and rendered in decimal;
   * anything else gives None.
   */
  function NormalizeArt(s: string): (r: Option<string>)
    ensures r.Some? ==> IsArticleId(r.value)
    ensures IsArticleId(Strip(s)) ==> r == Some(Strip(s))
    ensures !IsArticleId(Strip(s)) ==> (r.Some? <==> ZhValue(Strip(s)).Some?)
  {
    var t := Strip(s);
    if IsArticleId(t) then Some(t)
    else
      match ZhValue(t)
      case Some(v) =>
        NatToStringRoundTrip(v);
        Some(NatToString(v))
      case None => None
  }

  /** A text that is not already an article number but reads as a numeral `v` normalizes to `v` in decimal. */
  lemma NormalizeArtValue(s: string)
    requires !IsArticleId(Strip(s)) && ZhValue(Strip(s)).Some?
    ensures NormalizeArt(s) == Some(NatToString(ZhValue(Strip(s)).value))
    ensures PyInt(NormalizeArt(s).value) == ZhValue(Strip(s))
  {
    PyIntOfNatToString(ZhValue(Strip(s)).value);
  }

  /** A normalized article number normalizes to itself. */
  lemma NormalizeArtIdempotent(s: string)
    requires NormalizeArt(s).Some?
    ensures NormalizeArt(NormalizeArt(s).value) == NormalizeArt(s)
  {
    var r := NormalizeArt(s).value;
    ArticleIdNoSpace(r);
    StripNoSpace(r);
  }

  /** A canonical Chinese numeral for 1..999 normalizes to its decimal rendering. */
  lemma NormalizeArtOfNumeral(n: nat)
    requires 1 <= n <= 999
    ensures NormalizeArt(ZhNumeral(n)) == Some(NatToString(n))
  {
    var h, t, o := DigitSplit(n);
    NormalizeArtOfDigits(h, t, o, n);
  }

  lemma NormalizeArtOfDigits(h: nat, t: nat, o: nat, n: nat)
    requires h <= 9 && t <= 9 && o <= 9 && n == 100 * h + 10 * t + o && n > 0
    ensures NormalizeArt(ZhNumeralOf(h, t, o)) == Some(NatToString(n))
  {
    ZhNumeralOfShape(h, t, o);
    ZhNumeralOfRoundTrip(h, t, o, n);
    NormalizeArtOfNumeralText(ZhNumeralOf(h, t, o), n);
  }

  /** A string of numeral characters that does not start with a digit is read as a numeral. */
  lemma NormalizeArtOfNumeralText(s: string, n: nat)
    requires |s| > 0 && !IsDigit(s[0]) && forall i :: 0 <= i < |s| ==> IsZhNumeralChar(s[i])
    requires ZhValue(s) == Some(n)
    ensures NormalizeArt(s) == Some(NatToString(n))
  {
    NumeralCharsNoSpace(s);
    StripNoSpace(s);
    assert !IsArticleId(s) by {
      if '-' in s {
        var k := FirstIndex(s, '-');
        assert IsZhNumeralChar(s[k]);
      }
    }
  }

  /** What the docstring promises: 八 becomes 8 ... */
  lemma NormalizeArtEight()
    ensures NormalizeArt("八") == Some("8")
  {
    SpelledEight();
    NormalizeArtOfNumeral(8);
  }

  lemma SpelledEight()
    ensures ZhNumeral(8) == "八" && NatToString(8) == "8"
  {
  }

  /** ... and 16-1 is kept as it is. */
  lemma NormalizeArtKeepsHyphenated()
    ensures NormalizeArt("16-1") == Some("16-1")
  {
    var s := "16-1";
    assert FirstIndex(s, '-') == 2;
    assert IsArticleId(s);
    ArticleIdNoSpace(s);
    StripNoSpace(s);
  }

  /**
   * `compute_prev_flno`: for `M-N` the preceding article is `M` when `N > 0`
   * (otherwise `M - 1`, but never below 1); for `M` it is `M - 1`, but never
   * below 1; an unparsable number gives None.
   */
  function ComputePrevFlno(main: string): (r: Option<string>)
    ensures r.Some? ==> IsArticleId(r.value) && '-' !in r.value
  {
    if '-' in main then
      var k := FirstIndex(main, '-');
      match (PyInt(main[..k]), PyInt(main[k + 1..]))
      case (Some(major), Some(minor)) =>
        var p: nat := if minor > 0 then major else if major > 1 then major - 1 else major;
        NatToStringRoundTrip(p);
        Some(NatToString(p))
      case _ => None
    else
      match PyInt(main)
      case Some(m) =>
        var p: nat := if m > 1 then m - 1 else m;
        NatToStringRoundTrip(p);
        Some(NatToString(p))
      case None => None
  }

  lemma NoHyphenInDigits(s: string)
    requires AllDigits(s)
    ensures '-' !in s
  {
    forall i | 0 <= i < |s| ensures s[i] != '-' {
      assert IsDigit(s[i]);
    }
  }

  function Pred(m: nat): nat { if m > 1 then m - 1 else m }

  /** For a plain article `M` the preceding article is `M - 1`, or `M` itself for 0 and 1. */
  lemma PrevOfPlain(m: nat)
    ensures ComputePrevFlno(NatToString(m)) == Some(NatToString(Pred(m)))
  {
    var s := NatToString(m);
    NatToStringRoundTrip(m);
    NoHyphenInDigits(s);
    PyIntOfNatToString(m);
  }

  /** `(a + "-" + b).split("-", 1)` is `[a, b]` when `a` is a digit string. */
  lemma SplitAtHyphen(a: string, b: string)
    requires AllDigits(a)
    ensures var s := a + "-" + b;
            '-' in s && FirstIndex(s, '-') == |a| && s[..|a|] == a && s[|a| + 1..] == b
  {
    var s := a + "-" + b;
    assert s[|a|] == '-';
    var k := FirstIndex(s, '-');
    assert forall j :: 0 <= j < |a| ==> s[j] == a[j];
    forall j | 0 <= j < k ensures s[j] != '-' {
      assert s[..k][j] == s[j];
    }
    assert s[..|a|] == a;
    assert s[|a| + 1..] == b;
  }

  /**
   * For an inserted article `M-N` the preceding article is `M` when `N > 0`;
   * `M-0` counts as `M` and steps back like a plain article.
   */
  lemma PrevOfHyphenated(m: nat, n: nat)
    ensures ComputePrevFlno(NatToString(m) + "-" + NatToString(n))
            == Some(NatToString(if n > 0 then m else Pred(m)))
  {
    NatToStringRoundTrip(m);
    SplitAtHyphen(NatToString(m), NatToString(n));
    PyIntOfNatToString(m);
    PyIntOfNatToString(n);
  }

  /** A main article number without any digit has no preceding article: `int()` raises and the `except` gives None. */
  lemma PrevOfNonNumeric(s: string)
    requires NoDigit(s)
    ensures ComputePrevFlno(s) == None
  {
    if '-' in s {
      var k := FirstIndex(s, '-');
      forall i | 0 <= i < k ensures !IsDigit(s[..k][i]) {
        assert s[..k][i] == s[i];
      }
      PyIntNoDigit(s[..k]);
    } else {
      PyIntNoDigit(s);
    }
  }

  /** Without a readable number there is no preceding article. */
  lemma PrevOfUnparsable()
    ensures ComputePrevFlno("") == None
    ensures ComputePrevFlno("abc") == None
  {
    assert Strip("") == "";
    var s := "abc";
    assert NoSpace(s);
    StripNoSpace(s);
    assert !IsDigit(s[0]);
  }
}
