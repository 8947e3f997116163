/**
  The fragment of Python's `re` that the price patterns use. Every price
  pattern has the shape `lead (\d+[.,]\d+) trail`: a run of simple elements,
  the one capture group, a run of simple elements. `re.search` tries the
  start positions left to right and keeps the first at which the pattern
  matches.
 */
module Patterns {
  import opened Options
  import opened Numerals

  /** One element of a pattern outside the capture group. */
  datatype Elem =
    | Spaces        // \s*
    | Lit(c: char)  // the character c
    | Opt(c: char)  // c?
    | Comment       // (?:\s*<!--[^>]*-->)?

  datatype Pattern = Pattern(lead: seq<Elem>, trail: seq<Elem>)

  /** Where a search succeeded and the numeral its capture group read. */
  datatype Found = Found(start: nat, numeral: Numeral)

  /** The characters `\s` matches among ASCII. */
  predicate IsSpace(c: char) {
    c == ' ' || c == '\t' || c == '\n' || c == '\r' || c == '\U{0B}' || c == '\U{0C}'
  }

  function Lits(s: string): (es: seq<Elem>)
    ensures |es| == |s| && forall i :: 0 <= i < |s| ==> es[i] == Lit(s[i])
  {
    if s == [] then [] else [Lit(s[0])] + Lits(s[1..])
  }

  /** The end of the longest run of digits starting at i. */
  function DigitsEnd(t: string, i: nat): (j: nat)
    requires i <= |t|
    ensures i <= j <= |t| && AllDigits(t[i..j]) && (j == |t| || !IsDigit(t[j]))
    decreases |t| - i
  {
    if i < |t| && IsDigit(t[i]) then DigitsEnd(t, i + 1) else i
  }

  /** The end of the longest run of blanks starting at i. */
  function SpacesEnd(t: string, i: nat): (j: nat)
    requires i <= |t|
    ensures i <= j <= |t| && (forall k :: i <= k < j ==> IsSpace(t[k]))
    ensures j == |t| || !IsSpace(t[j])
    decreases |t| - i
  {
    if i < |t| && IsSpace(t[i]) then SpacesEnd(t, i + 1) else i
  }

  /** The position of the first `>` at or after i. */
  function CloseAngle(t: string, i: nat): (r: Option<nat>)
    requires i <= |t|
    ensures r.Some? ==> i <= r.value < |t| && t[r.value] == '>'
    ensures forall k :: i <= k < (if r.Some? then r.value else |t|) ==> t[k] != '>'
    decreases |t| - i
  {
    if i == |t| then None else if t[i] == '>' then Some(i) else CloseAngle(t, i + 1)
  }

  /**
    The text from i to e is one `\s*<!--[^>]*-->`: blanks up to s, then
    `<!--`, then no `>` until the `-->` that ends at e.
   */
  predicate CommentSpan(t: string, i: nat, s: nat, e: nat) {
    i <= s && s + 7 <= e <= |t|
    && (forall k :: i <= k < s ==> IsSpace(t[k]))
    && t[s..s + 4] == "<!--"
    && (forall k :: s + 4 <= k < e - 1 ==> t[k] != '>')
    && t[e - 3..e] == "-->"
  }

  /**
    `(?:\s*<!--[^>]*-->)?`: an HTML comment, after optional blanks, runs to
    the first `>` after its `<!--`, and that `>` must close `-->`; when no
    such comment follows, the optional group matches the empty string.
    Whatever it consumes is such a comment (`CommentEndComplete` gives the
    converse).
   */
  function CommentEnd(t: string, i: nat): (j: nat)
    requires i <= |t|
    ensures i <= j <= |t|
    ensures j > i ==> CommentSpan(t, i, SpacesEnd(t, i), j)
  {
    var s := SpacesEnd(t, i);
    if s + 4 <= |t| && t[s..s + 4] == "<!--" then
      match CloseAngle(t, s + 4)
      case Some(q) =>
        if q >= s + 6 && t[q - 2] == '-' && t[q - 1] == '-' then
          assert t[q - 2..q + 1] == "-->";
          q + 1
        else i
      case None => i
    else i
  }

  /** Where element e, matched at i, ends, or `None` if it does not match there. */
  function Step(e: Elem, t: string, i: nat): (r: Option<nat>)
    requires i <= |t|
    ensures r.Some? ==> i <= r.value <= |t|
    ensures e.Lit? ==> (r.Some? <==> i < |t| && t[i] == e.c)
  {
    match e
    case Spaces => Some(SpacesEnd(t, i))
    case Lit(c) => if i < |t| && t[i] == c then Some(i + 1) else None
    case Opt(c) => Some(if i < |t| && t[i] == c then i + 1 else i)
    case Comment => Some(CommentEnd(t, i))
  }

  /** Where the run of elements es, matched from i, ends. */
  function MatchElems(es: seq<Elem>, t: string, i: nat): (r: Option<nat>)
    requires i <= |t|
    ensures r.Some? ==> i <= r.value <= |t|
    decreases |es|
  {
    if es == [] then Some(i)
    else
      match Step(es[0], t, i)
      case None => None
      case Some(j) => MatchElems(es[1..], t, j)
  }

  /**
    `\d+[.,]\d+` at i: the numeral read there and where it ends. It reads
    exactly the text between i and that end, and both digit runs are greedy:
    the match stops only where the digits do.
   */
  function NumeralAt(t: string, i: nat): (r: Option<(Numeral, nat)>)
    requires i <= |t|
    ensures r.Some? ==> r.value.0.Valid() && i < r.value.1 <= |t|
                        && t[i..r.value.1] == r.value.0.Text()
    ensures r.Some? ==> r.value.1 == |t| || !IsDigit(t[r.value.1])
  {
    var j := DigitsEnd(t, i);
    if j == i || j == |t| || !IsSeparator(t[j]) then None
    else
      var k := DigitsEnd(t, j + 1);
      if k == j + 1 then None
      else
        assert t[i..k] == t[i..j] + [t[j]] + t[j + 1..k];
        Some((Numeral(t[i..j], t[j], t[j + 1..k]), k))
  }

  /** The numeral captured when p matches with its first character at i. */
  function MatchAt(p: Pattern, t: string, i: nat): (r: Option<Numeral>)
    requires i <= |t|
    ensures r.Some? ==> r.value.Valid()
    ensures r.Some? ==> exists j :: i <= j <= |t| && NumeralAt(t, j).Some? && NumeralAt(t, j).value.0 == r.value
    ensures p.lead == [] && r.Some? ==> NumeralAt(t, i).Some? && NumeralAt(t, i).value.0 == r.value
  {
    match MatchElems(p.lead, t, i)
    case None => None
    case Some(j) =>
      match NumeralAt(t, j)
      case None => None
      case Some((n, k)) => if MatchElems(p.trail, t, k).Some? then Some(n) else None
  }

  /**
    The first position from i to last at which m reads a numeral, and that
    numeral; `None` when m reads nothing anywhere in that range.
   */
  function Scan(m: nat -> Option<Numeral>, i: nat, last: nat): (r: Option<Found>)
    ensures r.Some? ==> i <= r.value.start <= last && m(r.value.start) == Some(r.value.numeral)
    decreases last + 1 - i
  {
    if i > last then None
    else
      match m(i)
      case Some(n) => Some(Found(i, n))
      case None => Scan(m, i + 1, last)
  }

  /** `Scan` reports the leftmost hit, and fails only when there is none. */
  lemma {:induction false} ScanIsLeftmost(m: nat -> Option<Numeral>, i: nat, last: nat)
    ensures Scan(m, i, last).Some? ==>
              forall j :: i <= j < Scan(m, i, last).value.start ==> m(j).None?
    ensures Scan(m, i, last).None? <==> forall j :: i <= j <= last ==> m(j).None?
    decreases last + 1 - i
  {
    if i <= last && m(i).None? {
      ScanIsLeftmost(m, i + 1, last);
    }
  }

  /** MatchAt over every start position of t. */
  function Starts(p: Pattern, t: string): nat -> Option<Numeral> {
    (j: nat) => if j <= |t| then MatchAt(p, t, j) else None
  }

  /**
    `re.search(p, t)` from position i on: the first start at which p
    matches, and what it captured there; `None` when no start matches.
   */
  function Search(p: Pattern, t: string, i: nat): (r: Option<Found>)
    requires i <= |t|
    ensures r.Some? ==> i <= r.value.start <= |t|
                        && MatchAt(p, t, r.value.start) == Some(r.value.numeral)
                        && r.value.numeral.Valid()
  {
    Scan(Starts(p, t), i, |t|)
  }

  /**
    The start `Search` reports is the leftmost one: p matches at no earlier
    position, and `Search` fails exactly when p matches nowhere.
   */
  lemma SearchIsLeftmost(p: Pattern, t: string, i: nat)
    requires i <= |t|
    ensures Search(p, t, i).Some? ==>
              forall j :: i <= j < Search(p, t, i).value.start ==> MatchAt(p, t, j).None?
    ensures Search(p, t, i).None? <==> forall j :: i <= j <= |t| ==> MatchAt(p, t, j).None?
  {
    ScanIsLeftmost(Starts(p, t), i, |t|);
    assert forall j :: i <= j <= |t| ==> Starts(p, t)(j) == MatchAt(p, t, j);
  }

  /** A pattern that matches at the very start of the text is found there. */
  lemma SearchFindsStart(p: Pattern, t: string, n: Numeral)
    requires MatchAt(p, t, 0) == Some(n)
    ensures Search(p, t, 0) == Some(Found(0, n))
  {
    assert Starts(p, t)(0) == Some(n);
  }

  /** A run of digits ended by a non-digit (or the end) is read to its end. */
  lemma {:induction false} DigitsEndOfRun(t: string, i: nat, j: nat)
    requires i <= j <= |t| && (forall k :: i <= k < j ==> IsDigit(t[k]))
    requires j == |t| || !IsDigit(t[j])
    ensures DigitsEnd(t, i) == j
    decreases j - i
  {
    if i < j {
      DigitsEndOfRun(t, i + 1, j);
    }
  }

  /** A run of elements holding the literal c cannot match a text without c. */
  lemma {:induction false} MatchElemsNeedsLiteral(es: seq<Elem>, t: string, i: nat, c: char)
    requires i <= |t| && Lit(c) in es && c !in t
    ensures MatchElems(es, t, i).None?
    decreases |es|
  {
    if es[0] != Lit(c) {
      match Step(es[0], t, i)
      case None =>
      case Some(j) =>
        assert Lit(c) in es[1..];
        MatchElemsNeedsLiteral(es[1..], t, j, c);
    }
  }

  /** A pattern holding the literal c is never found in a text without c. */
  lemma SearchNeedsLiteral(p: Pattern, t: string, c: char)
    requires (Lit(c) in p.lead || Lit(c) in p.trail) && c !in t
    ensures Search(p, t, 0).None?
  {
    forall j | 0 <= j <= |t| ensures MatchAt(p, t, j).None? {
      if Lit(c) in p.lead {
        MatchElemsNeedsLiteral(p.lead, t, j, c);
      } else if MatchElems(p.lead, t, j).Some? {
        var k := MatchElems(p.lead, t, j).value;
        if NumeralAt(t, k).Some? {
          MatchElemsNeedsLiteral(p.trail, t, NumeralAt(t, k).value.1, c);
        }
      }
    }
    SearchIsLeftmost(p, t, 0);
  }

  /** A run of blanks ended by a non-blank (or the end) is skipped to its end. */
  lemma {:induction false} SpacesEndOfRun(t: string, i: nat, j: nat)
    requires i <= j <= |t| && (forall k :: i <= k < j ==> IsSpace(t[k]))
    requires j == |t| || !IsSpace(t[j])
    ensures SpacesEnd(t, i) == j
    decreases j - i
  {
    if i < j {
      SpacesEndOfRun(t, i + 1, j);
    }
  }

  /** A comment that follows i is always consumed, to its `-->`. */
  lemma CommentEndComplete(t: string, i: nat, s: nat, e: nat)
    requires CommentSpan(t, i, s, e)
    ensures CommentEnd(t, i) == e
  {
    assert t[s] == '<' by { assert t[s..s + 4][0] == t[s]; }
    SpacesEndOfRun(t, i, s);
    assert t[e - 3] == '-' && t[e - 2] == '-' && t[e - 1] == '>' by {
      assert t[e - 3..e][0] == t[e - 3] && t[e - 3..e][1] == t[e - 2] && t[e - 3..e][2] == t[e - 1];
    }
    assert CloseAngle(t, s + 4) == Some(e - 1);
  }

  /** `\d+`, a separator and a digit starting at i, the separator at j. */
  predicate RunWithSeparator(t: string, i: nat, j: nat) {
    i < j && j + 1 < |t| && AllDigits(t[i..j]) && IsSeparator(t[j]) && IsDigit(t[j + 1])
  }

  /** Wherever such a run starts, `NumeralAt` reads a numeral whose whole part is its digits. */
  lemma NumeralAtComplete(t: string, i: nat, j: nat)
    requires RunWithSeparator(t, i, j)
    ensures NumeralAt(t, i).Some?
    ensures NumeralAt(t, i).value.0.whole == t[i..j] && NumeralAt(t, i).value.0.sep == t[j]
  {
    forall k | i <= k < j ensures IsDigit(t[k]) {
      assert t[i..j][k - i] == t[k];
    }
    DigitsEndOfRun(t, i, j);
  }

  /** The numeral `NumeralAt` reads at i starts such a run. */
  lemma NumeralAtSound(t: string, i: nat)
    requires i <= |t| && NumeralAt(t, i).Some?
    ensures RunWithSeparator(t, i, i + |NumeralAt(t, i).value.0.whole|)
  {
    var n, k := NumeralAt(t, i).value.0, NumeralAt(t, i).value.1;
    var j := i + |n.whole|;
    assert t[i..k] == n.Text();
    assert t[i..j] == t[i..k][..|n.whole|] == n.whole;
    assert t[j] == t[i..k][|n.whole|] == n.sep;
    assert t[j + 1] == t[i..k][|n.whole| + 1] == n.frac[0];
  }

  /** `\d+[.,]\d+` matches at i exactly when digits, a separator and a digit start there. */
  lemma NumeralAtExact(t: string, i: nat)
    requires i <= |t|
    ensures NumeralAt(t, i).Some? <==> exists j :: RunWithSeparator(t, i, j)
  {
    if NumeralAt(t, i).Some? {
      NumeralAtSound(t, i);
    }
    forall j | RunWithSeparator(t, i, j) ensures NumeralAt(t, i).Some? {
      NumeralAtComplete(t, i, j);
    }
  }
}
