/** Worked runs through extraction and the alert lock on page text of the usual shape. */
module Scenarios {
  import opened Options
  import opened Numerals
  import opened Patterns
  import opened Commodity
  import opened Extraction
  import opened Alerts

  /** The way the tariff page prints an electricity price. */
  function PowerPriceText(n: Numeral): string { n.Text() + " €/kWh" }

  /** The way the tariff page prints a gas price. */
  function GasPriceText(n: Numeral): string { n.Text() + " €/Smc" }

  /** Lower-casing leaves the digits and the separator of a numeral alone. */
  lemma LowerNumeralText(n: Numeral, rest: string)
    requires n.Valid()
    ensures Lower(n.Text() + rest) == n.Text() + Lower(rest)
  {
    var t0, t := n.Text() + rest, n.Text() + Lower(rest);
    var l := Lower(t0);
    assert |l| == |t|;
    forall i | 0 <= i < |t| ensures l[i] == t[i] {
      if i < |n.whole| {
        assert t0[i] == n.whole[i] && IsDigit(n.whole[i]);
      } else if |n.whole| < i < |n.Text()| {
        assert t0[i] == n.frac[i - |n.whole| - 1] && IsDigit(n.frac[i - |n.whole| - 1]);
      } else if i >= |n.Text()| {
        assert t0[i] == rest[i - |n.Text()|];
      }
    }
  }

  lemma LowerPowerSuffix(s: string)
    requires s == " €/kWh"
    ensures Lower(s) == " €/kwh"
  {
    assert Lower(s)[4] == 'w';
  }

  lemma LowerGasSuffix(s: string)
    requires s == " €/Smc"
    ensures Lower(s) == " €/smc"
  {
    assert Lower(s)[3] == 's';
  }

  // The unit `\s*/?\s*k? ?wh` matches `/kwh`.
  lemma PowerUnitMatches(t: string, p: nat)
    requires p + 4 == |t| && t[p] == '/' && t[p + 1] == 'k' && t[p + 2] == 'w' && t[p + 3] == 'h'
    ensures MatchElems(PowerUnit, t, p) == Some(|t|)
  {
    var tr := PowerUnit;
    assert tr == [Spaces, Opt('/'), Spaces, Opt('k'), Opt(' '), Lit('w'), Lit('h')];
    assert MatchElems(tr[7..], t, p + 4) == Some(p + 4);
    assert MatchElems(tr[6..], t, p + 3) == Some(p + 4);
    assert MatchElems(tr[5..], t, p + 2) == Some(p + 4);
    assert MatchElems(tr[4..], t, p + 2) == Some(p + 4);
    assert MatchElems(tr[3..], t, p + 1) == Some(p + 4);
    assert SpacesEnd(t, p + 1) == p + 1;
    assert MatchElems(tr[2..], t, p + 1) == Some(p + 4);
    assert MatchElems(tr[1..], t, p) == Some(p + 4);
    assert SpacesEnd(t, p) == p;
  }

  // The unit `\s*/?\s*s?mc` matches `/smc`.
  lemma GasUnitMatches(t: string, p: nat)
    requires p + 4 == |t| && t[p] == '/' && t[p + 1] == 's' && t[p + 2] == 'm' && t[p + 3] == 'c'
    ensures MatchElems(GasUnit, t, p) == Some(|t|)
  {
    var tr := GasUnit;
    assert tr == [Spaces, Opt('/'), Spaces, Opt('s'), Lit('m'), Lit('c')];
    assert MatchElems(tr[6..], t, p + 4) == Some(p + 4);
    assert MatchElems(tr[5..], t, p + 3) == Some(p + 4);
    assert MatchElems(tr[4..], t, p + 2) == Some(p + 4);
    assert MatchElems(tr[3..], t, p + 1) == Some(p + 4);
    assert SpacesEnd(t, p + 1) == p + 1;
    assert MatchElems(tr[2..], t, p + 1) == Some(p + 4);
    assert MatchElems(tr[1..], t, p) == Some(p + 4);
    assert SpacesEnd(t, p) == p;
  }

  /**
    A blank and a euro sign at p: the no-comment, blanks, euro head of a
    first pattern's tail consumes exactly those two characters, so the
    tail matches wherever its unit matches after them.
   */
  lemma EuroTrailMatches(t: string, p: nat, unit: seq<Elem>)
    requires p + 2 <= |t| && t[p] == ' ' && t[p + 1] == '€'
    ensures MatchElems([Comment, Spaces, Euro] + unit, t, p) == MatchElems(unit, t, p + 2)
  {
    var tr := [Comment, Spaces, Euro] + unit;
    var tr1 := tr[1..];
    var tr2 := tr1[1..];
    assert tr2[1..] == unit;
    assert SpacesEnd(t, p) == p + 1 by {
      assert SpacesEnd(t, p + 1) == p + 1;
    }
    assert CommentEnd(t, p) == p by {
      assert t[p + 1] != '<';
    }
    assert MatchElems(tr2, t, p + 1) == MatchElems(unit, t, p + 2) by {
      assert tr2[0] == Euro;
    }
    assert MatchElems(tr1, t, p) == MatchElems(tr2, t, p + 1) by {
      assert tr1[0] == Spaces;
    }
    assert tr[0] == Comment;
  }

  /** The numeral at the head of the page text is read whole. */
  lemma NumeralAtHead(n: Numeral, rest: string)
    requires n.Valid() && (rest == [] || !IsDigit(rest[0]))
    ensures NumeralAt(n.Text() + rest, 0) == Some((n, |n.Text()|))
  {
    var t := n.Text() + rest;
    var w, p := |n.whole|, |n.Text()|;
    assert t[..p] == n.Text();
    assert t[w] == n.sep && !IsDigit(n.sep);
    assert forall k :: 0 <= k < w ==> t[k] == n.whole[k];
    DigitsEndOfRun(t, 0, w);
    assert forall k :: w + 1 <= k < p ==> t[k] == n.frac[k - w - 1];
    assert p == |t| || t[p] == rest[0];
    DigitsEndOfRun(t, w + 1, p);
    assert t[..w] == n.whole && t[w + 1..p] == n.frac;
  }

  /**
    Text made of a numeral, a blank, a euro sign and a unit matches, at its
    start, the pattern numeral, optional comment, blanks, euro sign, that
    unit, which captures the numeral.
   */
  lemma EuroUnitPatternMatches(n: Numeral, rest: string, unit: seq<Elem>)
    requires n.Valid() && |rest| >= 2 && rest[0] == ' ' && rest[1] == '€'
    requires MatchElems(unit, n.Text() + rest, |n.Text()| + 2).Some?
    ensures MatchAt(Pattern([], [Comment, Spaces, Euro] + unit), n.Text() + rest, 0) == Some(n)
  {
    var t, p := n.Text() + rest, |n.Text()|;
    assert NumeralAt(t, 0) == Some((n, p)) by {
      NumeralAtHead(n, rest);
    }
    assert MatchElems([Comment, Spaces, Euro] + unit, t, p).Some? by {
      EuroTrailMatches(t, p, unit);
    }
  }

  /** ... and so that pattern reads the numeral's value from such text. */
  lemma EuroUnitPatternReads(n: Numeral, rest: string, unit: seq<Elem>)
    requires n.Valid() && |rest| >= 2 && rest[0] == ' ' && rest[1] == '€'
    requires MatchElems(unit, n.Text() + rest, |n.Text()| + 2).Some?
    ensures Attempt(Pattern([], [Comment, Spaces, Euro] + unit), n.Text() + rest) == Some(n.Value())
  {
    EuroUnitPatternMatches(n, rest, unit);
    SearchFindsStart(Pattern([], [Comment, Spaces, Euro] + unit), n.Text() + rest, n);
  }

  lemma LowerPowerPriceText(n: Numeral)
    requires n.Valid()
    ensures Lower(PowerPriceText(n)) == n.Text() + " €/kwh"
  {
    LowerNumeralText(n, " €/kWh");
    LowerPowerSuffix(" €/kWh");
  }

  lemma PowerUnitAfterEuro(n: Numeral)
    requires n.Valid()
    ensures MatchElems(PowerUnit, n.Text() + " €/kwh", |n.Text()| + 2).Some?
  {
    var t, p := n.Text() + " €/kwh", |n.Text()| + 2;
    assert t[p..] == "/kwh";
    PowerUnitMatches(t, p);
  }

  /** The first electricity pattern reads a electricity price line. */
  lemma FirstPowerPatternReads(n: Numeral)
    requires n.Valid()
    ensures Attempt(Pattern([], [Comment, Spaces, Euro] + PowerUnit), Lower(PowerPriceText(n))) == Some(n.Value())
  {
    LowerPowerPriceText(n);
    PowerUnitAfterEuro(n);
    EuroUnitPatternReads(n, " €/kwh", PowerUnit);
  }

  /**
    A page reading `<digits>,<digits> €/kWh` (or with a period) yields the
    value of that numeral, found by the first electricity pattern.
   */
  lemma ReadsPowerPrice(n: Numeral)
    requires n.Valid()
    ensures Extract(PowerPriceText(n), Electricity) == Some(n.Value())
  {
    FirstPowerPatternReads(n);
    assert ElectricityPatterns[0] == Pattern([], [Comment, Spaces, Euro] + PowerUnit);
    KindPatternsBeforeFallback(PowerPriceText(n), Electricity, 0);
  }

  lemma LowerGasPriceText(n: Numeral)
    requires n.Valid()
    ensures Lower(GasPriceText(n)) == n.Text() + " €/smc"
  {
    LowerNumeralText(n, " €/Smc");
    LowerGasSuffix(" €/Smc");
  }

  lemma GasUnitAfterEuro(n: Numeral)
    requires n.Valid()
    ensures MatchElems(GasUnit, n.Text() + " €/smc", |n.Text()| + 2).Some?
  {
    var t, p := n.Text() + " €/smc", |n.Text()| + 2;
    assert t[p..] == "/smc";
    GasUnitMatches(t, p);
  }

  /** The first gas pattern reads a gas price line. */
  lemma FirstGasPatternReads(n: Numeral)
    requires n.Valid()
    ensures Attempt(Pattern([], [Comment, Spaces, Euro] + GasUnit), Lower(GasPriceText(n))) == Some(n.Value())
  {
    LowerGasPriceText(n);
    GasUnitAfterEuro(n);
    EuroUnitPatternReads(n, " €/smc", GasUnit);
  }

  /** A page reading `<digits>,<digits> €/Smc` yields that numeral's value, by the first gas pattern. */
  lemma ReadsGasPrice(n: Numeral)
    requires n.Valid()
    ensures Extract(GasPriceText(n), Gas) == Some(n.Value())
  {
    FirstGasPatternReads(n);
    assert GasPatterns[0] == Pattern([], [Comment, Spaces, Euro] + GasUnit);
    KindPatternsBeforeFallback(GasPriceText(n), Gas, 0);
  }

  lemma LowValue()
    ensures Numeral("0", ',', "0950").Value() == 0.095
  {
    assert FractionValue("0950") == 0.095 by {
      assert "0950"[1..] == "950" && "950"[1..] == "50" && "50"[1..] == "0" && "0"[1..] == "";
    }
    assert DigitsValue("0") == 0;
  }

  lemma HighValue()
    ensures Numeral("0", ',', "1500").Value() == 0.15
  {
    assert FractionValue("1500") == 0.15 by {
      assert "1500"[1..] == "500" && "500"[1..] == "00" && "00"[1..] == "0" && "0"[1..] == "";
    }
    assert DigitsValue("0") == 0;
  }

  lemma LowPowerPrice(text: string)
    requires text == "0,0950 €/kWh"
    ensures Extract(text, Electricity) == Some(0.095)
  {
    var n := Numeral("0", ',', "0950");
    assert PowerPriceText(n) == text;
    ReadsPowerPrice(n);
    LowValue();
  }

  lemma HighPowerPrice(text: string)
    requires text == "0,1500 €/kWh"
    ensures Extract(text, Electricity) == Some(0.15)
  {
    var n := Numeral("0", ',', "1500");
    assert PowerPriceText(n) == text;
    ReadsPowerPrice(n);
    HighValue();
  }

  /**
    The default threshold 0.11, an armed electricity monitor, a page reading
    `0,0950 €/kWh`: the price is 0.095, an alert goes out and, delivered,
    locks the monitor.
   */
  lemma LowPriceAlertsAndLocks(m: Record, text: string)
    requires !Notified(m, Electricity) && text == "0,0950 €/kWh"
    ensures var price := Extract(text, Electricity);
            var o := Evaluate(m, Electricity, DefaultConfig.Target(Electricity), price, true);
            price == Some(0.095) && o.attempted
            && o.record[PriceKey(Electricity)] == Number(0.095)
            && o.record[NotifiedKey(Electricity)] == Bool(true)
  {
    LowPowerPrice(text);
  }

  /**
    The default threshold 0.11, a locked electricity monitor, a page reading
    `0,1500 €/kWh`: no alert, and the lock is released.
   */
  lemma RecoveryUnlocks(m: Record, text: string, delivered: bool)
    requires Notified(m, Electricity) && text == "0,1500 €/kWh"
    ensures var price := Extract(text, Electricity);
            var o := Evaluate(m, Electricity, DefaultConfig.Target(Electricity), price, delivered);
            price == Some(0.15) && !o.attempted
            && o.record[PriceKey(Electricity)] == Number(0.15)
            && o.record[NotifiedKey(Electricity)] == Bool(false)
  {
    HighPowerPrice(text);
  }
}
