/**
  `extract_price_from_text`: lower-case the page text, try the commodity's
  patterns in their declared order and return the price captured by the
  first that matches; failing all of them, take the first number followed
  by a euro sign anywhere in the text; failing that, `None`.
 */
module Extraction {
  import opened Options
  import opened Numerals
  import opened Patterns
  import opened Commodity

  function LowerChar(c: char): char {
    if 'A' <= c <= 'Z' then (c as int + 32) as char else c
  }

  predicate IsUpper(c: char) { 'A' <= c <= 'Z' }

  /** `text.lower()` on ASCII letters. */
  function Lower(t: string): (r: string)
    ensures |r| == |t| && forall i :: 0 <= i < |t| ==> r[i] == LowerChar(t[i])
  {
    if t == [] then [] else [LowerChar(t[0])] + Lower(t[1..])
  }

  /** Lower-cased text holds no upper-case letter, and lower-casing it again changes nothing. */
  lemma LowerIsLower(t: string)
    ensures forall i :: 0 <= i < |t| ==> !IsUpper(Lower(t)[i])
    ensures Lower(Lower(t)) == Lower(t)
  {
    var l := Lower(t);
    assert forall i :: 0 <= i < |t| ==> LowerChar(l[i]) == l[i];
  }

  const Euro := Lit('€')

  // `\s*/?\s*s?mc`
  const GasUnit: seq<Elem> := [Spaces, Opt('/'), Spaces, Opt('s'), Lit('m'), Lit('c')]

  // `\s*/?\s*k? ?wh`
  const PowerUnit: seq<Elem> := [Spaces, Opt('/'), Spaces, Opt('k'), Opt(' '), Lit('w'), Lit('h')]

  /** The gas patterns, in their declared order. */
  const GasPatterns: seq<Pattern> := [
    Pattern([], [Comment, Spaces, Euro] + GasUnit),
    Pattern([Euro, Spaces], [Comment] + GasUnit),
    Pattern([], [Comment, Spaces] + Lits("€/smc")),
    Pattern([], [Comment, Spaces] + Lits("€/mc")),
    Pattern([], [Spaces, Euro] + GasUnit),
    Pattern([Euro, Spaces], GasUnit),
    Pattern([], [Spaces] + Lits("€/smc")),
    Pattern([], [Spaces] + Lits("€/mc"))
  ]

  /** The electricity patterns, in their declared order. */
  const ElectricityPatterns: seq<Pattern> := [
    Pattern([], [Comment, Spaces, Euro] + PowerUnit),
    Pattern([Euro, Spaces], [Comment] + PowerUnit),
    Pattern([], [Comment, Spaces] + Lits("€/kWh")),
    Pattern([], [Comment, Spaces] + Lits("€/kW")),
    Pattern([], [Spaces, Euro] + PowerUnit),
    Pattern([Euro, Spaces], PowerUnit),
    Pattern([], [Spaces] + Lits("€/kWh")),
    Pattern([], [Spaces] + Lits("€/kW"))
  ]

  /** The kind-agnostic fallback `(\d+[.,]\d+)\s*€`. */
  const AnyEuro := Pattern([], [Spaces, Euro])

  /** Gas selects the gas patterns; every other kind the electricity ones. */
  function PatternsFor(kind: Kind): seq<Pattern> {
    if kind == Gas then GasPatterns else ElectricityPatterns
  }

  /** Every gas pattern demands a euro sign and the unit's `m` and `c`. */
  lemma GasPatternsNeedEuroAndUnit()
    ensures |GasPatterns| == 8
    ensures forall k :: 0 <= k < |GasPatterns| ==>
              (Lit('€') in GasPatterns[k].lead || Lit('€') in GasPatterns[k].trail)
              && Lit('m') in GasPatterns[k].trail && Lit('c') in GasPatterns[k].trail
  {
    var ps := GasPatterns;
    assert GasUnit[4] == Lit('m') && GasUnit[5] == Lit('c');
    assert ps[0].trail[2] == Euro && ps[0].trail[7] == Lit('m') && ps[0].trail[8] == Lit('c');
    assert ps[1].lead[0] == Euro && ps[1].trail[5] == Lit('m') && ps[1].trail[6] == Lit('c');
    assert ps[2].trail[2] == Euro && ps[2].trail[5] == Lit('m') && ps[2].trail[6] == Lit('c');
    assert ps[3].trail[2] == Euro && ps[3].trail[4] == Lit('m') && ps[3].trail[5] == Lit('c');
    assert ps[4].trail[1] == Euro && ps[4].trail[6] == Lit('m') && ps[4].trail[7] == Lit('c');
    assert ps[5].lead[0] == Euro && ps[5].trail[4] == Lit('m') && ps[5].trail[5] == Lit('c');
    assert ps[6].trail[1] == Euro && ps[6].trail[4] == Lit('m') && ps[6].trail[5] == Lit('c');
    assert ps[7].trail[1] == Euro && ps[7].trail[3] == Lit('m') && ps[7].trail[4] == Lit('c');
  }

  /** Every electricity pattern demands a euro sign and a `w`, in one case or the other. */
  lemma ElectricityPatternsNeedEuroAndW()
    ensures |ElectricityPatterns| == 8
    ensures forall k :: 0 <= k < |ElectricityPatterns| ==>
              (Lit('€') in ElectricityPatterns[k].lead || Lit('€') in ElectricityPatterns[k].trail)
              && (Lit('w') in ElectricityPatterns[k].trail || Lit('W') in ElectricityPatterns[k].trail)
  {
    var ps := ElectricityPatterns;
    assert PowerUnit[5] == Lit('w');
    assert ps[0].trail[2] == Euro && ps[0].trail[8] == Lit('w');
    assert ps[1].lead[0] == Euro && ps[1].trail[6] == Lit('w');
    assert ps[2].trail[2] == Euro && ps[2].trail[5] == Lit('W');
    assert ps[3].trail[2] == Euro && ps[3].trail[5] == Lit('W');
    assert ps[4].trail[1] == Euro && ps[4].trail[7] == Lit('w');
    assert ps[5].lead[0] == Euro && ps[5].trail[5] == Lit('w');
    assert ps[6].trail[1] == Euro && ps[6].trail[4] == Lit('W');
    assert ps[7].trail[1] == Euro && ps[7].trail[4] == Lit('W');
  }

  /**
    One pattern's try: search, replace the comma in the captured numeral,
    `float()` it. The conversion never fails on a captured numeral, so a
    pattern yields a price exactly when it is found, and the price is the
    value of the numeral it captured.
   */
  function Attempt(p: Pattern, t: string): (r: Option<real>)
    ensures r.Some? <==> Search(p, t, 0).Some?
    ensures r.Some? ==> r.value == Search(p, t, 0).value.numeral.Value() && r.value >= 0.0
  {
    match Search(p, t, 0)
    case None => None
    case Some(found) =>
      NumeralParses(found.numeral);
      ParseFloat(Normalize(found.numeral.Text()))
  }

  /** Each pattern, tried on the text t, as a partial matcher. */
  function Matcher(t: string): Pattern -> Option<real> {
    p => Attempt(p, t)
  }

  /**
    The loop over the patterns: try each in order and return the first
    result that is present. It is absent exactly when every try is, and a
    present result is what some try gave.
   */
  function FirstMatch<P, V>(ps: seq<P>, try: P -> Option<V>): (r: Option<V>)
    ensures r.None? <==> forall k :: 0 <= k < |ps| ==> try(ps[k]).None?
    ensures r.Some? ==> exists k :: 0 <= k < |ps| && try(ps[k]) == r
  {
    if ps == [] then None
    else
      match try(ps[0])
      case Some(v) => Some(v)
      case None =>
        var rest := FirstMatch(ps[1..], try);
        assert forall k :: 1 <= k < |ps| ==> ps[k] == ps[1..][k - 1];
        rest
  }

  /**
    The patterns' tries, run through the loop: a result is never negative,
    and there is none exactly when no pattern is found.
   */
  lemma TriesAgree(ps: seq<Pattern>, t: string)
    ensures FirstMatch(ps, Matcher(t)).Some? ==> FirstMatch(ps, Matcher(t)).value >= 0.0
    ensures FirstMatch(ps, Matcher(t)).None? <==> forall k :: 0 <= k < |ps| ==> Search(ps[k], t, 0).None?
  {
    var r := FirstMatch(ps, Matcher(t));
    if r.Some? {
      var k :| 0 <= k < |ps| && Matcher(t)(ps[k]) == r;
      assert Attempt(ps[k], t) == r;
    }
    assert forall k :: 0 <= k < |ps| ==> Matcher(t)(ps[k]) == Attempt(ps[k], t);
  }

  /**
    The price in a page text. It is absent only when neither a pattern of
    the kind nor the fallback is found in the lower-cased text; a present
    price is never negative.
   */
  function Extract(text: string, kind: Kind): (r: Option<real>)
    ensures r.Some? ==> r.value >= 0.0
    ensures r.None? <==> (forall k :: 0 <= k < |PatternsFor(kind)| ==>
                            Search(PatternsFor(kind)[k], Lower(text), 0).None?)
                         && Search(AnyEuro, Lower(text), 0).None?
  {
    var lower := Lower(text);
    TriesAgree(PatternsFor(kind), lower);
    match FirstMatch(PatternsFor(kind), Matcher(lower))
    case Some(v) => Some(v)
    case None => Attempt(AnyEuro, lower)
  }

  /**
    The try at position k wins when every earlier one fails: what it yields
    is what the loop returns, whatever the later tries would give.
   */
  lemma {:induction false} FirstMatchPicksEarliest<P, V>(ps: seq<P>, try: P -> Option<V>, k: nat)
    requires k < |ps| && try(ps[k]).Some?
    requires forall j :: 0 <= j < k ==> try(ps[j]).None?
    ensures FirstMatch(ps, try) == try(ps[k])
    decreases k
  {
    if k > 0 {
      assert forall j :: 0 <= j < k - 1 ==> ps[1..][j] == ps[j + 1];
      FirstMatchPicksEarliest(ps[1..], try, k - 1);
    }
  }

  /** Once a result is found, tries appended after the list are never consulted. */
  lemma {:induction false} FirstMatchIgnoresLater<P, V>(ps: seq<P>, qs: seq<P>, try: P -> Option<V>)
    requires FirstMatch(ps, try).Some?
    ensures FirstMatch(ps + qs, try) == FirstMatch(ps, try)
    decreases |ps|
  {
    var all := ps + qs;
    assert all[0] == ps[0];
    if try(ps[0]).None? {
      assert all[1..] == ps[1..] + qs;
      FirstMatchIgnoresLater(ps[1..], qs, try);
    }
  }

  /** A try that never yields can be struck from the list without changing the result. */
  lemma {:induction false} FirstMatchSkipsFailing<P, V>(ps: seq<P>, try: P -> Option<V>, k: nat)
    requires k < |ps| && try(ps[k]).None?
    ensures FirstMatch(ps, try) == FirstMatch(ps[..k] + ps[k + 1..], try)
    decreases k
  {
    var qs := ps[..k] + ps[k + 1..];
    if k == 0 {
      assert qs == ps[1..];
    } else {
      assert qs[0] == ps[0];
      if try(ps[0]).None? {
        assert qs[1..] == ps[1..][..k - 1] + ps[1..][k..];
        FirstMatchSkipsFailing(ps[1..], try, k - 1);
      }
    }
  }

  /** A kind pattern that yields a price decides the result: the fallback is not consulted. */
  lemma KindPatternsBeforeFallback(text: string, kind: Kind, k: nat)
    requires k < |PatternsFor(kind)| && Attempt(PatternsFor(kind)[k], Lower(text)).Some?
    requires forall j :: 0 <= j < k ==> Attempt(PatternsFor(kind)[j], Lower(text)).None?
    ensures Extract(text, kind) == Attempt(PatternsFor(kind)[k], Lower(text))
  {
    FirstMatchPicksEarliest(PatternsFor(kind), Matcher(Lower(text)), k);
  }

  /** When no kind pattern is found the result is exactly the fallback's. */
  lemma FallbackOnlyWhenKindPatternsFail(text: string, kind: Kind)
    requires forall k :: 0 <= k < |PatternsFor(kind)| ==> Search(PatternsFor(kind)[k], Lower(text), 0).None?
    ensures Extract(text, kind) == Attempt(AnyEuro, Lower(text))
  {
    assert forall k :: 0 <= k < |PatternsFor(kind)| ==> Matcher(Lower(text))(PatternsFor(kind)[k]).None?;
  }

  /** Extraction reads only the lower-cased text: the case of the input does not matter. */
  lemma ExtractIgnoresCase(text: string, kind: Kind)
    ensures Extract(Lower(text), kind) == Extract(text, kind)
  {
    LowerIsLower(text);
  }

  /**
    The electricity patterns spelled with an upper-case `W` (the third,
    fourth, seventh and eighth) are searched in lower-cased text and so
    never match.
   */
  lemma MixedCasePatternsNeverMatch(text: string, k: nat)
    requires k in {2, 3, 6, 7}
    ensures Search(ElectricityPatterns[k], Lower(text), 0).None?
  {
    LowerIsLower(text);
    var p := ElectricityPatterns[k];
    assert Lits("€/kW")[3] == Lit('W') && Lits("€/kWh")[3] == Lit('W');
    assert Lit('W') in p.trail;
    assert 'W' !in Lower(text) by {
      forall i | 0 <= i < |text| ensures Lower(text)[i] != 'W' {
        assert !IsUpper(Lower(text)[i]);
      }
    }
    SearchNeedsLiteral(p, Lower(text), 'W');
  }

  lemma StrikeIndices<T>(ps: seq<T>)
    requires |ps| == 8
    ensures ps[..7] == ps[..7] + ps[8..]
    ensures ps[..6] == ps[..7][..6] + ps[..7][7..]
    ensures [ps[0], ps[1], ps[2], ps[4], ps[5]] == ps[..6][..3] + ps[..6][4..]
    ensures [ps[0], ps[1], ps[4], ps[5]]
         == [ps[0], ps[1], ps[2], ps[4], ps[5]][..2] + [ps[0], ps[1], ps[2], ps[4], ps[5]][3..]
  {
  }

  /** Striking the third, fourth, seventh and eighth of eight tries that never yield. */
  lemma StrikeFour<P, V>(ps: seq<P>, try: P -> Option<V>)
    requires |ps| == 8
    requires try(ps[2]).None? && try(ps[3]).None? && try(ps[6]).None? && try(ps[7]).None?
    ensures FirstMatch(ps, try) == FirstMatch([ps[0], ps[1], ps[4], ps[5]], try)
  {
    StrikeIndices(ps);
    FirstMatchSkipsFailing(ps, try, 7);
    FirstMatchSkipsFailing(ps[..7], try, 6);
    FirstMatchSkipsFailing(ps[..6], try, 3);
    FirstMatchSkipsFailing([ps[0], ps[1], ps[2], ps[4], ps[5]], try, 2);
  }

  /** So the electricity result is that of its four lower-case patterns alone. */
  lemma ElectricityUsesFourPatterns(text: string)
    ensures var ps, try := ElectricityPatterns, Matcher(Lower(text));
            FirstMatch(ps, try) == FirstMatch([ps[0], ps[1], ps[4], ps[5]], try)
  {
    var try := Matcher(Lower(text));
    MixedCasePatternsNeverMatch(text, 2);
    MixedCasePatternsNeverMatch(text, 3);
    MixedCasePatternsNeverMatch(text, 6);
    MixedCasePatternsNeverMatch(text, 7);
    var ps := ElectricityPatterns;
    assert try(ps[2]).None? && try(ps[3]).None? && try(ps[6]).None? && try(ps[7]).None?;
    StrikeFour(ps, try);
  }

  /** Lower-casing introduces no character other than a lower-case ASCII letter. */
  lemma LowerKeepsAbsence(t: string, c: char)
    requires c !in t && !('a' <= c <= 'z')
    ensures c !in Lower(t)
  {
    forall i | 0 <= i < |t| ensures Lower(t)[i] != c {
      assert t[i] != c;
    }
  }

  /** A page without a euro sign yields no price at all. */
  lemma ExtractNeedsEuro(text: string, kind: Kind)
    requires '€' !in text
    ensures Extract(text, kind).None?
  {
    var lower := Lower(text);
    LowerKeepsAbsence(text, '€');
    GasPatternsNeedEuroAndUnit();
    ElectricityPatternsNeedEuroAndW();
    var ps := PatternsFor(kind);
    forall k | 0 <= k < |ps| ensures Search(ps[k], lower, 0).None? {
      SearchNeedsLiteral(ps[k], lower, '€');
    }
    SearchNeedsLiteral(AnyEuro, lower, '€');
  }

  /**
    A page without `c` or `C` cannot show the gas unit: the gas price is
    then whatever the unit-less fallback reads.
   */
  lemma GasWithoutUnitFallsBack(text: string)
    requires 'c' !in text && 'C' !in text
    ensures Extract(text, Gas) == Attempt(AnyEuro, Lower(text))
  {
    var lower := Lower(text);
    forall i | 0 <= i < |text| ensures lower[i] != 'c' {
      assert text[i] != 'c' && text[i] != 'C';
    }
    GasPatternsNeedEuroAndUnit();
    var ps := PatternsFor(Gas);
    forall k | 0 <= k < |ps| ensures Search(ps[k], lower, 0).None? {
      SearchNeedsLiteral(ps[k], lower, 'c');
    }
    FallbackOnlyWhenKindPatternsFail(text, Gas);
  }
}
