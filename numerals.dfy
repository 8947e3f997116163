/**
  Decimal numerals as the price extractor captures them (`\d+[.,]\d+`), the
  comma-to-period normalisation applied to the captured text, and Python's
  `float()` restricted to strings of ASCII digits and separators.
 */
module Numerals {
  import opened Options

  predicate IsDigit(c: char) { '0' <= c <= '9' }

  predicate AllDigits(s: string) { forall i :: 0 <= i < |s| ==> IsDigit(s[i]) }

  predicate IsSeparator(c: char) { c == '.' || c == ',' }

  function DigitValue(c: char): (d: nat)
    requires IsDigit(c)
    ensures d < 10
  {
    c as int - '0' as int
  }

  /** The value of a string of decimal digits, most significant first. */
  function DigitsValue(s: string): (v: nat)
    requires AllDigits(s)
    decreases |s|
  {
    if s == [] then 0 else DigitsValue(s[..|s| - 1]) * 10 + DigitValue(s[|s| - 1])
  }

  /** The value of the digits after a decimal point: `0.f`. */
  function FractionValue(f: string): (v: real)
    requires AllDigits(f)
    ensures 0.0 <= v < 1.0
    decreases |f|
  {
    if f == [] then 0.0 else (DigitValue(f[0]) as real + FractionValue(f[1..])) / 10.0
  }

  /** A captured numeral: digits, one separator, digits. */
  datatype Numeral = Numeral(whole: string, sep: char, frac: string) {

    predicate Valid() {
      |whole| > 0 && AllDigits(whole) && IsSeparator(sep) && |frac| > 0 && AllDigits(frac)
    }

    /** The text the numeral was read from. */
    function Text(): string { whole + [sep] + frac }

    /** The number the numeral denotes: the whole digits are its integer part. */
    function Value(): (v: real)
      requires Valid()
      ensures DigitsValue(whole) as real <= v < DigitsValue(whole) as real + 1.0
    {
      DigitsValue(whole) as real + FractionValue(frac)
    }
  }

  /** `s.replace(",", ".")` */
  function Normalize(s: string): (r: string)
    ensures |r| == |s|
  {
    if s == [] then [] else [if s[0] == ',' then '.' else s[0]] + Normalize(s[1..])
  }

  /** Normalisation works character by character: it turns commas into periods. */
  lemma {:induction false} NormalizeAt(s: string, i: nat)
    requires i < |s|
    ensures Normalize(s)[i] == (if s[i] == ',' then '.' else s[i])
    decreases |s|
  {
    if i > 0 {
      NormalizeAt(s[1..], i - 1);
    }
  }

  /** Normalisation distributes over concatenation. */
  lemma {:induction false} NormalizeConcat(a: string, b: string)
    ensures Normalize(a + b) == Normalize(a) + Normalize(b)
    decreases |a|
  {
    if a == [] {
      assert a + b == b;
    } else {
      assert (a + b)[1..] == a[1..] + b;
      NormalizeConcat(a[1..], b);
    }
  }

  /** Digits are left alone. */
  lemma {:induction false} NormalizeDigits(s: string)
    requires AllDigits(s)
    ensures Normalize(s) == s
    decreases |s|
  {
    if s != [] {
      NormalizeDigits(s[1..]);
    }
  }

  /** The position of the first `c` in `s`, if any. */
  function IndexOf(s: string, c: char): (r: Option<nat>)
    ensures r.None? <==> c !in s
    ensures r.Some? ==> r.value < |s| && s[r.value] == c && c !in s[..r.value]
  {
    if s == [] then None
    else if s[0] == c then Some(0)
    else
      match IndexOf(s[1..], c)
      case None => None
      case Some(k) =>
        assert s[..k + 1] == [s[0]] + s[1..][..k];
        Some(k + 1)
  }

  /**
    Python's `float()` on a string made of digits, periods and commas: it
    accepts digits with at most one period and at least one digit, and
    rejects (raises, here `None`) anything holding a comma. The rest of
    float's grammar (signs, exponents, blanks, underscores, inf, nan) is
    mapped to `None`; the extractor never passes such a string.
   */
  function ParseFloat(s: string): (r: Option<real>)
    ensures r.Some? ==> r.value >= 0.0
  {
    match IndexOf(s, '.')
    case None =>
      if |s| > 0 && AllDigits(s) then Some(DigitsValue(s) as real) else None
    case Some(k) =>
      var w, f := s[..k], s[k + 1..];
      if |w| + |f| > 0 && AllDigits(w) && AllDigits(f) then
        Some(DigitsValue(w) as real + FractionValue(f))
      else None
  }

  /** A comma in the text makes `float()` fail: the replace is needed. */
  lemma ParseFloatRejectsComma(s: string, i: nat)
    requires i < |s| && s[i] == ','
    ensures ParseFloat(s).None?
  {
    match IndexOf(s, '.')
    case None =>
      assert !IsDigit(s[i]);
    case Some(k) =>
      if i < k {
        assert !IsDigit(s[..k][i]);
      } else {
        assert i != k;
        assert !IsDigit(s[k + 1..][i - k - 1]);
      }
  }

  /** `float()` reads `w.f` as the whole digits plus the fraction digits. */
  lemma {:induction false} ParseFloatDecimal(w: string, f: string)
    requires AllDigits(w) && AllDigits(f) && |w| + |f| > 0
    ensures ParseFloat(w + ['.'] + f)
         == Some(DigitsValue(w) as real + FractionValue(f))
  {
    var s := w + ['.'] + f;
    assert '.' !in w;
    IndexOfAfterPrefix(w, f, '.');
    assert s[..|w|] == w;
    assert s[|w| + 1..] == f;
  }

  lemma IndexOfAfterPrefix(w: string, f: string, c: char)
    requires c !in w
    ensures IndexOf(w + [c] + f, c) == Some(|w|)
  {
    var s := w + [c] + f;
    var r := IndexOf(s, c);
    assert s[|w|] == c;
    assert r.Some?;
  }

  /** Replacing the separator by a period is the only change normalisation makes. */
  lemma NormalizeNumeral(n: Numeral)
    requires n.Valid()
    ensures Normalize(n.Text()) == n.whole + ['.'] + n.frac
  {
    NormalizeConcat(n.whole + [n.sep], n.frac);
    NormalizeConcat(n.whole, [n.sep]);
    NormalizeDigits(n.whole);
    NormalizeDigits(n.frac);
  }

  /**
    A captured numeral, once normalised, always parses, and to its value:
    the `except: continue` branch of the extractor is never taken.
   */
  lemma NumeralParses(n: Numeral)
    requires n.Valid()
    ensures ParseFloat(Normalize(n.Text())) == Some(n.Value())
  {
    NormalizeNumeral(n);
    ParseFloatDecimal(n.whole, n.frac);
  }

  /** "0,1067" and "0.1067" give the same number, for every numeral. */
  lemma SeparatorIrrelevant(w: string, f: string)
    requires |w| > 0 && AllDigits(w) && |f| > 0 && AllDigits(f)
    ensures ParseFloat(Normalize(Numeral(w, ',', f).Text()))
         == ParseFloat(Normalize(Numeral(w, '.', f).Text()))
         == Some(Numeral(w, '.', f).Value())
    ensures ParseFloat(Numeral(w, ',', f).Text()).None?
  {
    var comma, period := Numeral(w, ',', f), Numeral(w, '.', f);
    assert ParseFloat(Normalize(comma.Text())) == Some(period.Value()) by {
      NumeralParses(comma);
    }
    assert ParseFloat(Normalize(period.Text())) == Some(period.Value()) by {
      NumeralParses(period);
    }
    assert ParseFloat(comma.Text()).None? by {
      assert comma.Text()[|w|] == ',';
      ParseFloatRejectsComma(comma.Text(), |w|);
    }
  }

  lemma CommaExample()
    ensures ParseFloat(Normalize("0,1067")) == ParseFloat(Normalize("0.1067")) == Some(0.1067)
  {
    var n := Numeral("0", '.', "1067");
    assert n.Valid();
    assert "0,1067" == Numeral("0", ',', "1067").Text();
    assert "0.1067" == n.Text();
    assert n.Value() == 0.1067 by {
      assert FractionValue("1067") == 0.1067 by {
        assert "1067"[1..] == "067" && "067"[1..] == "67" && "67"[1..] == "7" && "7"[1..] == "";
      }
      assert DigitsValue("0") == 0;
    }
    SeparatorIrrelevant("0", "1067");
  }
}
