# Octopus price bot: price extraction and the alert lock

The bot reads Octopus Energy Italia's tariff page and pulls out two prices:
electricity in €/kWh and gas in €/Smc. When a price falls below the user's
target, it sends a Telegram alert. A per-commodity `notified` flag stored in
`state.json` makes sure one dip alerts only once. This project models the
core of that program and proves properties of it.

## What is modelled

- **`extract_price_from_text`**, in modules `Numerals`, `Patterns` and `Extraction`.
  - The page text is lower-cased.
  - The commodity's eight patterns are tried in their declared order. Each
    pattern is a `re.search` for `lead (\d+[.,]\d+) trail`.
  - The first pattern that is found gives the price. The captured numeral has
    its comma replaced by a period and is then passed to `float()`.
  - If none of those patterns is found, the kind-agnostic `(\d+[.,]\d+)\s*€`
    is tried. If that fails too, the result is `None`.
  - Patterns are datatypes made of the few elements the bot's regular
    expressions use: `\s*`, a literal, an optional character, and the optional
    HTML comment `(?:\s*<!--[^>]*-->)?`.
  - `re.search` is a leftmost scan over start positions. The loop over the
    patterns is a generic first-success function over an ordered list of
    matchers.
  - Prices are exact reals.
- **`check_price`** once the price has been fetched, in module `Alerts`.
  - The state is the JSON dictionary, a map from keys to JSON scalars, read
    with Python truthiness and `state.get(key, False)`.
  - Class `MonitorState` holds that dictionary. `CheckPrice` updates it in
    place and is proved equal to the pure function `Evaluate`.
  - `CheckAll` is `main`'s electricity-then-gas sequence.
  - `Replay` folds `Evaluate` over successive scheduled runs.
- **The default state of `load_state`**: `DefaultRecord` and
  `MonitorState.Default`.
- **Worked runs**, in module `Scenarios`. Typical page lines (`0,0950 €/kWh`,
  `0,1500 €/kWh`, `<numeral> €/Smc`) are taken through extraction and the lock.

The third, fourth, seventh and eighth electricity patterns
(`octopus_price_bot.py:76-77` and `:80-81`) spell the unit `€/kW` / `€/kWh`
with an upper-case `W`. They are searched in lower-cased text, so they can
never match (`MixedCasePatternsNeverMatch`). The electricity result is
therefore decided by the other four patterns alone
(`ElectricityUsesFourPatterns`). The model keeps all eight patterns as written.

The `float()` call on `octopus_price_bot.py:96` is not inside a `try`. It cannot
raise, because every numeral the patterns capture parses once its comma is
replaced (`NumeralParses`). For the same reason the `except: continue` branch
at `:91-92` is never taken.

## Model

| member | source | states |
|---|---|---|
| `Numerals.Normalize` | octopus_price_bot.py:88 | `replace(",", ".")` keeps the length of the text; `NormalizeAt` gives it character by character |
| `Numerals.NormalizeAt` | octopus_price_bot.py:88 | `replace(",", ".")` turns each comma into a period and leaves every other character where it was |
| `Numerals.NormalizeNumeral` | octopus_price_bot.py:88 | normalising a captured numeral changes only its separator, which becomes a period |
| `Numerals.ParseFloat` | octopus_price_bot.py:90 | `float()` on digits and separators: a result, when present, is never negative |
| `Numerals.ParseFloatDecimal` | octopus_price_bot.py:90 | `float("w.f")` is the whole digits' value plus the fraction digits' value |
| `Numerals.ParseFloatRejectsComma` | octopus_price_bot.py:88-90 | `float()` fails on any text holding a comma, which is why the replace is needed |
| `Numerals.NumeralParses` | octopus_price_bot.py:86-96 | every numeral a pattern captures parses after normalisation, to the numeral's value, so the `except` branch is never taken and line 96 cannot raise |
| `Numerals.SeparatorIrrelevant` | octopus_price_bot.py:88-90 | for all digit strings w and f, `w,f` and `w.f` give the same price, their value; without the replace `w,f` would not parse |
| `Numerals.CommaExample` | octopus_price_bot.py:56 | `"0,1067"` and `"0.1067"` both read as 0.1067 |
| `Patterns.NumeralAt` | octopus_price_bot.py:62 | `(\d+[.,]\d+)` reads a valid numeral that is exactly the text it spans, and both digit runs are greedy (the match ends where the digits do) |
| `Patterns.NumeralAtSound` | octopus_price_bot.py:62 | a numeral read at i begins with digits, then a separator, then a digit |
| `Patterns.NumeralAtComplete` | octopus_price_bot.py:62 | wherever digits, a separator and a digit start at i, a numeral is read there, its whole part being those digits and its separator that one |
| `Patterns.NumeralAtExact` | octopus_price_bot.py:62 | `\d+[.,]\d+` matches at i exactly when digits, a separator and a digit start at i |
| `Patterns.CommentEnd` | octopus_price_bot.py:62 | whatever the optional group consumes is blanks, `<!--`, no `>`, then `-->` |
| `Patterns.CommentEndComplete` | octopus_price_bot.py:62 | when blanks, `<!--`, no `>` and `-->` follow i, the optional group consumes exactly that comment |
| `Patterns.MatchAt` | octopus_price_bot.py:62-81 | a pattern matching at i captures a valid numeral, one that `\d+[.,]\d+` reads at some position from i on, and at i itself when the pattern has nothing before the group |
| `Patterns.Search` | octopus_price_bot.py:86 | `re.search` reports a start inside the text at which the pattern matches, capturing a valid numeral |
| `Patterns.ScanIsLeftmost` | octopus_price_bot.py:86 | a left-to-right scan over start positions reports the leftmost hit and fails only when there is no hit |
| `Patterns.SearchIsLeftmost` | octopus_price_bot.py:86 | no earlier start matches, and the search fails exactly when the pattern matches at no position |
| `Patterns.SearchFindsStart` | octopus_price_bot.py:86 | a pattern that matches at position 0 is found there, with that capture |
| `Patterns.SearchNeedsLiteral` | octopus_price_bot.py:86 | a pattern containing a literal character is never found in text without that character |
| `Extraction.Lower` | octopus_price_bot.py:84 | `lower()` keeps the length and maps each character on its own, A-Z to a-z |
| `Extraction.LowerKeepsAbsence` | octopus_price_bot.py:84 | lower-casing introduces no character other than a lower-case ASCII letter |
| `Extraction.LowerIsLower` | octopus_price_bot.py:84 | lower-cased text has no upper-case letter, and lower-casing is idempotent |
| `Extraction.Attempt` | octopus_price_bot.py:86-92 | one pattern yields a price exactly when it is found, and that price is the captured numeral's value |
| `Extraction.FirstMatch` | octopus_price_bot.py:85-92 | the pattern loop returns nothing exactly when every try fails, and otherwise the result of some try |
| `Extraction.FirstMatchPicksEarliest` | octopus_price_bot.py:85-92 | the first try in declared order that yields decides the result, whatever later tries would give |
| `Extraction.FirstMatchIgnoresLater` | octopus_price_bot.py:85-92 | once a result is found, tries listed after it are never consulted |
| `Extraction.FirstMatchSkipsFailing` | octopus_price_bot.py:85-92 | removing a try that never yields does not change the result |
| `Extraction.TriesAgree` | octopus_price_bot.py:85-92 | over the patterns the loop yields a non-negative price, and yields nothing exactly when no pattern is found |
| `Extraction.Extract` | octopus_price_bot.py:54-97 | the price is never negative, and it is `None` exactly when no pattern of the kind and not the fallback is found in the lower-cased text |
| `Extraction.KindPatternsBeforeFallback` | octopus_price_bot.py:85-94 | when pattern k of the kind yields and no earlier one does, the result is pattern k's price and the fallback is not consulted |
| `Extraction.FallbackOnlyWhenKindPatternsFail` | octopus_price_bot.py:93-97 | when no pattern of the kind is found, the result is exactly the `\d+[.,]\d+\s*€` fallback's |
| `Extraction.ExtractIgnoresCase` | octopus_price_bot.py:84 | extracting from lower-cased text gives the same result as extracting from the original |
| `Extraction.MixedCasePatternsNeverMatch` | octopus_price_bot.py:76-81 | the four electricity patterns spelled with `W` are never found in the lower-cased text |
| `Extraction.GasPatternsNeedEuroAndUnit` | octopus_price_bot.py:59-70 | there are eight gas patterns, each demanding a euro sign and the unit's `m` and `c` |
| `Extraction.ElectricityPatternsNeedEuroAndW` | octopus_price_bot.py:71-82 | there are eight electricity patterns, each demanding a euro sign and a `w` in one case or the other |
| `Extraction.ExtractNeedsEuro` | octopus_price_bot.py:84-97 | a page without a euro sign yields no price, whatever the commodity |
| `Extraction.GasWithoutUnitFallsBack` | octopus_price_bot.py:59-97 | a page with no `c` in either case cannot show the gas unit, so the gas price is whatever the unit-less fallback `\d+[.,]\d+\s*€` reads |
| `Extraction.ElectricityUsesFourPatterns` | octopus_price_bot.py:73-82 | the electricity loop gives the same result as a loop over its first, second, fifth and sixth patterns only |
| `Alerts.NotifiedIsGetOrFalse` | octopus_price_bot.py:149-154 | `state.get(notified_key, False)` read for its truth: a missing key or null is not notified, a boolean is itself, a number unless zero, a string unless empty |
| `Alerts.DefaultRecordIsArmed` | octopus_price_bot.py:31-36 | the default state holds exactly the four keys, both prices null and both flags false |
| `Alerts.KeysDistinct` | octopus_price_bot.py:139-145 | the price key and the notified key of each commodity, and those of different commodities, are distinct entries |
| `Alerts.Evaluate` | octopus_price_bot.py:124-162 | absent price: state unchanged, no alert. Present price: the price is stored, keys other than the commodity's two are untouched, an alert is attempted iff price < target and not notified, notified becomes (previously notified or delivered) below target and false at or above it, and the flag is left as it was where the source does not write it |
| `Alerts.MonitorState.Default` | octopus_price_bot.py:31-36 | the starting state has no price and both commodities not notified |
| `Alerts.MonitorState.Loaded` | octopus_price_bot.py:28-30 | a state read back from disk is held as it was saved |
| `Alerts.MonitorState.CheckPrice` | octopus_price_bot.py:124-162 | the in-place update of the state dictionary produces exactly the record and alert attempt that `Evaluate` specifies |
| `Alerts.MonitorState.CheckAll` | octopus_price_bot.py:165-176 | electricity is checked first, then gas on the resulting state, each with its own target from the configuration |
| `Alerts.Replay` | octopus_price_bot.py:124-162 | successive runs fold the check over the saved state, with at most one alert per run; what the runs do is stated by `ReplayKeepsLock`, `SteadyLowPriceNeverRenotifies`, `SustainedDipAlertsOnce`, `MissingObservationsChangeNothing` and `DipRecoveryDipAlertsTwice` |
| `Alerts.DefaultLockHeld` | octopus_price_bot.py:31-36 | the default state is not notified and satisfies the lock invariant |
| `Alerts.EvaluateKeepsLock` | octopus_price_bot.py:149-156 | every check keeps the invariant "notified only while the last recorded price is below target", whatever the price and delivery outcome |
| `Alerts.ReplayKeepsLock` | octopus_price_bot.py:149-156 | the invariant holds after any sequence of runs |
| `Alerts.EvaluateLeavesOtherKind` | octopus_price_bot.py:139-145 | checking one commodity leaves the other commodity's price and notified entries untouched |
| `Alerts.RecheckIsIdempotent` | octopus_price_bot.py:149-156 | re-checking the same price after a delivered check changes nothing and attempts no alert |
| `Alerts.FailedDeliveryRetries` | octopus_price_bot.py:149-153 | a failed delivery leaves the commodity not notified, so the next below-target run attempts again |
| `Alerts.SteadyLowPriceNeverRenotifies` | octopus_price_bot.py:149-156 | while notified, any run of below-target prices attempts no alert and stays notified |
| `Alerts.SustainedDipAlertsOnce` | octopus_price_bot.py:149-153 | from not notified, a run of below-target prices, all delivered, attempts exactly one alert |
| `Alerts.MissingObservationsChangeNothing` | octopus_price_bot.py:132-134 | runs whose fetch fails leave the state exactly as it was and attempt nothing |
| `Alerts.DipRecoveryDipAlertsTwice` | octopus_price_bot.py:149-156 | for any target, the pattern dip, dip, at-or-above, dip, all delivered, attempts exactly two alerts |
| `Alerts.HysteresisExample` | octopus_price_bot.py:149-156 | from the default state with the default electricity target 0.11, prices 0.05, 0.05, 0.12, 0.05 attempt two alerts |
| `Scenarios.LowerNumeralText` | octopus_price_bot.py:84 | lower-casing leaves a numeral's characters unchanged |
| `Scenarios.NumeralAtHead` | octopus_price_bot.py:74 | a numeral followed by a non-digit is captured whole |
| `Scenarios.EuroTrailMatches` | octopus_price_bot.py:74 | `(?:comment)?\s*€` consumes exactly ` €` when no comment follows the numeral |
| `Scenarios.PowerUnitMatches` | octopus_price_bot.py:74 | `\s*/?\s*k? ?wh` matches `/kwh` through to its end |
| `Scenarios.GasUnitMatches` | octopus_price_bot.py:62 | `\s*/?\s*s?mc` matches `/smc` through to its end |
| `Scenarios.EuroUnitPatternMatches` | octopus_price_bot.py:62 | a numeral-then-`€`-then-unit pattern captures the numeral at the head of `<numeral> €<unit>` |
| `Scenarios.EuroUnitPatternReads` | octopus_price_bot.py:62 | that pattern's try yields the numeral's value |
| `Scenarios.FirstPowerPatternReads` | octopus_price_bot.py:74 | the first electricity pattern reads the value from `<numeral> €/kWh` |
| `Scenarios.ReadsPowerPrice` | octopus_price_bot.py:54-97 | extraction of electricity from `<numeral> €/kWh` returns that numeral's value |
| `Scenarios.FirstGasPatternReads` | octopus_price_bot.py:62 | the first gas pattern reads the value from `<numeral> €/Smc` |
| `Scenarios.ReadsGasPrice` | octopus_price_bot.py:54-97 | extraction of gas from `<numeral> €/Smc` returns that numeral's value |
| `Scenarios.LowPowerPrice` | octopus_price_bot.py:84-90 | `"0,0950 €/kWh"` reads as 0.095 |
| `Scenarios.HighPowerPrice` | octopus_price_bot.py:84-90 | `"0,1500 €/kWh"` reads as 0.15 |
| `Scenarios.LowPriceAlertsAndLocks` | octopus_price_bot.py:149-153 | from not notified, with target 0.11 and that page, an alert is attempted, 0.095 is recorded, and a delivered alert sets the flag |
| `Scenarios.RecoveryUnlocks` | octopus_price_bot.py:154-156 | from notified, with target 0.11 and a page reading 0,1500, no alert is attempted, 0.15 is recorded and the flag is cleared |

## Left out

- `fetch_price_by_scraping` (`octopus_price_bot.py:100-121`) is network I/O
  and a foreign HTML library: the HTTP request, the 403 and exception
  handling, and BeautifulSoup's visible-text second pass. Its result is an
  `Option<real>` input to `Evaluate`. `if price:` at `:113` also treats a
  price of exactly 0.0 as missing before the second pass. That affects only
  which text the price comes from, and the model does not reproduce it.
- `send_telegram_message` (`:43-51`) is a network call with a credential
  check. Its outcome is the boolean input `delivered`, and the message text is
  not modelled.
- `Alerts.MonitorState.CheckAll` and `Alerts.Replay` do not model an
  exception from `requests.post` (`:49`). No `try` surrounds it, in
  `send_telegram_message`, in `check_price` (`:151`) or in `main`
  (`:170-176`), so a timeout or connection error ends the run before
  `save_state` (`:179`). Gas is then not checked, and nothing from that run
  is saved, not even the new electricity price. The model treats every
  failed send as `delivered = false` and carries on.
- Reading and writing `state.json` (`:28-30`, `:39-40`) is file I/O. A loaded
  state is any map from keys to JSON scalars; nested JSON values are not
  modelled. `Replay` assumes the record is saved after each run and read back
  unchanged.
- Loading configuration from the environment and `float()` of the thresholds
  (`:10-21`) are ambient configuration. Thresholds are parameters; the
  defaults 0.11 and 0.85 are `Commodity.DefaultConfig`.
- Floating point: prices and thresholds are exact reals, so rounding in
  `float()` and in the `<` and `>=` comparisons is not modelled.
- Logging, the alert message with `datetime.utcnow()`, and `%.4f` formatting
  are presentation and clock only.
- `Patterns.Search` implements only the regular-expression fragment the
  bot's patterns use. It matches greedily without backtracking. The
  comment group is the exception: it ends at the first `>` after `<!--`
  and checks that `--` comes just before it, which is where Python's
  backtracking ends `[^>]*-->`. This agrees with Python's `re` on these
  patterns. Giving back characters never helps, because the element after
  any give-back (`[.,]`, `\d`, `<`, `€`, `w`, `m` or `-`) meets a character
  it cannot match: a digit, a blank, `/`, `k` or `s`. In `\s*k? ?wh`, for
  example, a blank that `\s*` took from ` ?` would leave `w` facing that
  blank. Nothing in the model proves this agreement. `\d` and `\s` are their ASCII forms, whereas
  Python's `str` patterns also match other Unicode digits and blanks (for
  example a no-break space).
- `Extraction.Lower`: lower-cases only ASCII letters. Python's `str.lower()`
  also folds other Unicode letters, which cannot affect the digits, `€` and
  ASCII unit letters the patterns look for, except that an upper-case non-ASCII
  letter folding to an ASCII one is not modelled.
- `Numerals.ParseFloat`: only the part of `float()`'s grammar made of digits,
  periods and commas is modelled. Every string the extractor passes to it has
  that form.
- `price_type` is the two-valued `Commodity.Kind`. In the source any string
  other than `"gas"` selects the electricity patterns (`:59`), while the unit
  text at `:136` and the choice of state keys at `:140` test for
  `"electricity"`. A third string would therefore store a price read by the
  electricity patterns under the gas keys. `main` only ever passes those two
  strings.
