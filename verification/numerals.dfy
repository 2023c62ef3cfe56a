/**
 * `zh_to_int` of script/get_signal_txt.py: Chinese numerals (digits
 * 零〇一二兩三…九, units 十 and 百) or a plain ASCII digit string to an integer.
 */
module Numerals {
  import opened Wrappers
  import opened Text

  /** The keys of `ZH_DIGITS`. */
  predicate IsZhDigit(c: char) {
    c == '零' || c == '〇' || c == '一' || c == '二' || c == '兩' || c == '三'
    || c == '四' || c == '五' || c == '六' || c == '七' || c == '八' || c == '九'
  }

  /** The values of `ZH_DIGITS`. */
  function ZhDigitValue(c: char): (d: nat)
    requires IsZhDigit(c)
    ensures d < 10
  {
    if c == '一' then 1
    else if c == '二' || c == '兩' then 2
    else if c == '三' then 3
    else if c == '四' then 4
    else if c == '五' then 5
    else if c == '六' then 6
    else if c == '七' then 7
    else if c == '八' then 8
    else if c == '九' then 9
    else 0
  }

  /** The keys of `ZH_UNITS`. */
  predicate IsZhUnit(c: char) { c == '十' || c == '百' }

  function ZhUnitValue(c: char): nat
    requires IsZhUnit(c)
  {
    if c == '十' then 10 else 100
  }

  predicate IsZhNumeralChar(c: char) { IsZhDigit(c) || IsZhUnit(c) }

  /**
   * The scan loop from the state `(total, num)`: a digit overwrites `num`,
   * a unit adds `(num or 1) * unit` to `total` and clears `num`, any other
   * character fails; at the end the value is `total + num`.
   */
  function Scan(s: string, total: nat, num: nat): Option<nat>
    decreases |s|
  {
    if s == [] then Some(total + num)
    else if IsZhDigit(s[0]) then Scan(s[1..], total, ZhDigitValue(s[0]))
    else if IsZhUnit(s[0]) then Scan(s[1..], total + (if num == 0 then 1 else num) * ZhUnitValue(s[0]), 0)
    else None
  }

  /** What `zh_to_int(s)` returns. */
  function ZhValue(s: string): (r: Option<nat>)
    ensures Strip(s) == [] ==> r == None
    ensures AllDigits(Strip(s)) && Strip(s) != [] ==> r == Some(DigitsValue(Strip(s)))
  {
    var t := Strip(s);
    if t == [] then None
    else if AllDigits(t) then Some(DigitsValue(t))
    else Scan(t, 0, 0)
  }

  /** `zh_to_int`, with its `while` loop over the stripped input. */
  method ZhToInt(s: string) returns (r: Option<nat>)
    ensures r == ZhValue(s)
  {
    var t := Strip(s);
    if |t| == 0 {
      return None;
    }
    if AllDigits(t) {
      return Some(DigitsValue(t));
    }
    var total: nat, num: nat, i := 0, 0, 0;
    while i < |t|
      invariant 0 <= i <= |t|
      invariant Scan(t, 0, 0) == Scan(t[i..], total, num)
    {
      var ch := t[i];
      ScanAt(t, i, total, num);
      if IsZhDigit(ch) {
        num := ZhDigitValue(ch);
        i := i + 1;
      } else if IsZhUnit(ch) {
        total := total + (if num == 0 then 1 else num) * ZhUnitValue(ch);
        num := 0;
        i := i + 1;
      } else {
        return None;
      }
    }
    r := Some(total + num);
  }

  /** One step of the scan at position `i`. */
  lemma ScanAt(t: string, i: nat, total: nat, num: nat)
    requires i < |t|
    ensures Scan(t[i..], total, num)
            == if IsZhDigit(t[i]) then Scan(t[i + 1..], total, ZhDigitValue(t[i]))
               else if IsZhUnit(t[i]) then Scan(t[i + 1..], total + (if num == 0 then 1 else num) * ZhUnitValue(t[i]), 0)
               else None
  {
    assert t[i..][0] == t[i] && t[i..][1..] == t[i + 1..];
  }

  /** The scan succeeds exactly on strings made only of numeral characters. */
  lemma {:induction false} ScanDefinedIff(s: string, total: nat, num: nat)
    ensures Scan(s, total, num).Some? <==> forall i :: 0 <= i < |s| ==> IsZhNumeralChar(s[i])
    decreases |s|
  {
    if s != [] {
      if IsZhNumeralChar(s[0]) {
        var n := if IsZhDigit(s[0]) then ZhDigitValue(s[0]) else 0;
        var t := if IsZhDigit(s[0]) then total else total + (if num == 0 then 1 else num) * ZhUnitValue(s[0]);
        ScanDefinedIff(s[1..], t, n);
        assert forall i :: 1 <= i < |s| ==> s[i] == s[1..][i - 1];
      }
    }
  }

  /**
   * `zh_to_int` fails exactly on blank input and on input (other than a
   * pure digit string) holding a character outside ZH_DIGITS and ZH_UNITS.
   */
  lemma ZhValueDefinedIff(s: string)
    ensures ZhValue(s).Some? <==>
              Strip(s) != [] &&
              (AllDigits(Strip(s)) || forall i :: 0 <= i < |Strip(s)| ==> IsZhNumeralChar(Strip(s)[i]))
  {
    ScanDefinedIff(Strip(s), 0, 0);
  }

  /** The value of each digit 1..9 as the canonical numeral character. */
  function ZhDigitChar(d: nat): (c: char)
    requires 1 <= d <= 9
    ensures IsZhDigit(c) && ZhDigitValue(c) == d
  {
    var c := "一二三四五六七八九"[d - 1];
    assert d == 1 || d == 2 || d == 3 || d == 4 || d == 5 || d == 6 || d == 7 || d == 8 || d == 9;
    c
  }

  /**
   * The usual way of writing 1..999 in Chinese numerals: 十五, 二十, 一百零五,
   * 一百一十, 九百九十九.
   */
  function ZhNumeral(n: nat): string
    requires 1 <= n <= 999
  {
    ZhNumeralOf(n / 10 / 10, n / 10 % 10, n % 10)
  }

  /** The numeral with hundreds digit `h`, tens digit `t` and ones digit `o`. */
  function ZhNumeralOf(h: nat, t: nat, o: nat): string
    requires h <= 9 && t <= 9 && o <= 9
  {
    Hundreds(h) + Tens(h, t, o) + Ones(o)
  }

  function Hundreds(h: nat): string
    requires h <= 9
  {
    if h > 0 then [ZhDigitChar(h), '百'] else []
  }

  function Tens(h: nat, t: nat, o: nat): string
    requires t <= 9
  {
    if t > 0 then (if h == 0 && t == 1 then ['十'] else [ZhDigitChar(t), '十'])
    else if h > 0 && o > 0 then ['零'] else []
  }

  function Ones(o: nat): string
    requires o <= 9
  {
    if o > 0 then [ZhDigitChar(o)] else []
  }

  lemma ScanCons(c: char, s: string, total: nat, num: nat)
    requires IsZhNumeralChar(c)
    ensures Scan([c] + s, total, num)
            == if IsZhDigit(c) then Scan(s, total, ZhDigitValue(c))
               else Scan(s, total + (if num == 0 then 1 else num) * ZhUnitValue(c), 0)
  {
    assert ([c] + s)[0] == c && ([c] + s)[1..] == s;
  }

  lemma ScanOnes(o: nat, total: nat)
    requires o <= 9
    ensures Scan(Ones(o), total, 0) == Some(total + o)
  {
    if o > 0 {
      ScanCons(ZhDigitChar(o), [], total, 0);
      assert [ZhDigitChar(o)] + [] == Ones(o);
    }
  }

  lemma ScanTensOnes(h: nat, t: nat, o: nat, total: nat)
    requires h <= 9 && t <= 9 && o <= 9
    ensures Scan(Tens(h, t, o) + Ones(o), total, 0) == Some(total + 10 * t + o)
  {
    var ones := Ones(o);
    ScanOnes(o, total + 10 * t);
    if t > 0 {
      if h == 0 && t == 1 {
        ScanCons('十', ones, total, 0);
      } else {
        var d := ZhDigitChar(t);
        assert Tens(h, t, o) + ones == [d] + (['十'] + ones);
        ScanCons(d, ['十'] + ones, total, 0);
        ScanCons('十', ones, total, t);
      }
    } else if h > 0 && o > 0 {
      ScanCons('零', ones, total, 0);
    } else {
      assert Tens(h, t, o) + ones == ones;
    }
  }

  lemma {:induction false} NumeralCharsNoSpace(s: string)
    requires forall i :: 0 <= i < |s| ==> IsZhNumeralChar(s[i])
    ensures NoSpace(s)
  {
  }

  /** A numeral is non-empty, made of numeral characters and starts with a non-digit. */
  lemma ZhNumeralOfShape(h: nat, t: nat, o: nat)
    requires h <= 9 && t <= 9 && o <= 9 && h + t + o > 0
    ensures var s := ZhNumeralOf(h, t, o);
            |s| > 0 && !IsDigit(s[0]) && forall i :: 0 <= i < |s| ==> IsZhNumeralChar(s[i])
  {
  }

  lemma ScanNumeralOf(h: nat, t: nat, o: nat)
    requires h <= 9 && t <= 9 && o <= 9
    ensures Scan(ZhNumeralOf(h, t, o), 0, 0) == Some(100 * h + 10 * t + o)
  {
    var rest := Tens(h, t, o) + Ones(o);
    ScanTensOnes(h, t, o, 100 * h);
    if h > 0 {
      var d := ZhDigitChar(h);
      assert ZhNumeralOf(h, t, o) == [d] + (['百'] + rest);
      ScanCons(d, ['百'] + rest, 0, 0);
      ScanCons('百', rest, 0, h);
    } else {
      assert ZhNumeralOf(h, t, o) == rest;
    }
  }

  lemma ZhNumeralOfRoundTrip(h: nat, t: nat, o: nat, n: nat)
    requires h <= 9 && t <= 9 && o <= 9 && n == 100 * h + 10 * t + o && n > 0
    ensures ZhValue(ZhNumeralOf(h, t, o)) == Some(n)
  {
    var s := ZhNumeralOf(h, t, o);
    ZhNumeralOfShape(h, t, o);
    NumeralCharsNoSpace(s);
    StripNoSpace(s);
    assert !AllDigits(s);
    ScanNumeralOf(h, t, o);
  }

  /** The hundreds, tens and ones digits of a number below 1000. */
  lemma DigitSplit(n: nat) returns (h: nat, t: nat, o: nat)
    requires 1 <= n <= 999
    ensures h <= 9 && t <= 9 && o <= 9 && n == 100 * h + 10 * t + o
    ensures ZhNumeral(n) == ZhNumeralOf(h, t, o)
  {
    var q := n / 10;
    h, t, o := q / 10, q % 10, n % 10;
    assert n == 10 * q + o;
    assert q == 10 * h + t;
  }

  /** Every canonical numeral for 1..999 reads back as its value. */
  lemma ZhNumeralRoundTrip(n: nat)
    requires 1 <= n <= 999
    ensures ZhValue(ZhNumeral(n)) == Some(n)
  {
    var h, t, o := DigitSplit(n);
    ZhNumeralOfRoundTrip(h, t, o, n);
  }

  /** A plain digit string is read directly: `zh_to_int(str(n)) == n`. */
  lemma ZhValueOfDigits(n: nat)
    ensures ZhValue(NatToString(n)) == Some(n)
  {
    NatToStringRoundTrip(n);
    DigitsHaveNoSpace(NatToString(n));
    StripNoSpace(NatToString(n));
  }

  /** `zh_to_int("十")` is 10: a unit with no digit before it counts once. */
  lemma ZhValueTen()
    ensures ZhValue("十") == Some(10)
  {
    SpelledTen();
    ZhNumeralOfRoundTrip(0, 1, 0, 10);
  }

  lemma SpelledTen()
    ensures ZhNumeralOf(0, 1, 0) == "十"
  {
  }

  /** `zh_to_int("二十三")` is 23. */
  lemma ZhValueTwentyThree()
    ensures ZhValue("二十三") == Some(23)
  {
    SpelledTwentyThree();
    ZhNumeralOfRoundTrip(0, 2, 3, 23);
  }

  lemma SpelledTwentyThree()
    ensures ZhNumeralOf(0, 2, 3) == "二十三"
  {
  }

  /** A string with a character outside the numeral tables is rejected. */
  lemma ZhValueRejects()
    ensures ZhValue("abc") == None
  {
    StripNoSpace("abc");
    assert !IsZhNumeralChar("abc"[0]);
    ScanDefinedIff("abc", 0, 0);
  }
}
