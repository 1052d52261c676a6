# Hardwood tariff radar: the rate calculator in Dafny

This project models the rate calculator of the hardwood tariff radar, the
`DataParser` class in `src/services/dataParser.ts`. The class has five
operations:

- `parseTariffData` turns a loosely typed record from the data aggregator
  into the dashboard's tariff view. Each missing or falsy field takes its
  default: reciprocal 10, fentanyl 10, Section 301 `"25-30"`, Section 232 0,
  the current time, and no sources.
- `calculateEffectiveTotal` stacks the defaulted rates on the two ends of
  the Section 301 range text and prints `"{min}%"` or `"{min}-{max}%"`.
- `getHTSBreakdown` lists five fixed HTS codes with their stacked rates.
- `getScenarios` returns the three forecast scenarios A, B and C.
- `calculateCompanyImpact` projects a company's revenue and jobs at risk.

The class keeps no state and each method is one expression, so each
operation is a function and the properties are lemmas.

The JavaScript behaviour the code relies on is written out, not assumed:
- `x || d` defaulting: a number is falsy when missing, NaN or 0; a string
  when missing or empty.
- `===` on numbers, where NaN equals nothing.
- `String.prototype.split` on `-`.
- `parseInt` as ECMAScript defines it: leading white space, one optional
  sign, a `0x` prefix that switches to radix 16, the longest run of digits,
  and NaN when there are none.
- Integer-to-string conversion in template literals, and `Math.round`.

Modules:
- `JsValues` (`js_values.dfy`): `Option`, a JavaScript number that is NaN
  or an integer, strict equality, falsy defaulting and `Math.round`.
- `JsText` (`js_text.dfy`): split and join, integer formatting and
  `parseInt`, with their characterising lemmas.
- `DataParser` (`data_parser.dfy`): the data types and the five
  operations. `ReadTotal` is a decoder for the total text that the
  round-trip lemma uses.
- `DataParserProperties` (`data_parser_properties.dfy`): the properties of
  the operations.

## Model

| member | source | states |
|---|---|---|
| JsValues.Round | src/services/dataParser.ts:121-122 | `Math.round` gives the integer k with k - 0.5 <= x < k + 0.5 |
| JsValues.RoundUnique | src/services/dataParser.ts:121-122 | that integer is the only one in that half-open window, so the rounding is exact |
| JsText.Split | src/services/dataParser.ts:22 | splitting always yields at least one piece |
| JsText.SplitSpec | src/services/dataParser.ts:22 | no piece contains the separator, and joining the pieces with the separator gives back the input |
| JsText.SplitWithoutSeparator | src/services/dataParser.ts:22 | a text without the separator splits into itself alone |
| JsText.SplitAfterPiece | src/services/dataParser.ts:22 | a separator-free first piece followed by the separator splits off as the first piece |
| JsText.SplitJoin | src/services/dataParser.ts:22 | split inverts join for pieces without the separator |
| JsText.ShowNat | src/services/dataParser.ts:26 | a natural number prints as a decimal numeral with no leading zero that denotes that number |
| JsText.TrimStartSpec | src/services/dataParser.ts:23-24 | `parseInt` drops exactly the leading white space: what it drops is white space, and what it keeps is a suffix that does not start with white space |
| JsText.LeadingDigitsSpec | src/services/dataParser.ts:23-24 | the digits `parseInt` reads are the longest prefix of radix digits |
| JsText.LeadingDigitsOfNumeral | src/services/dataParser.ts:23-24 | a numeral followed by a non-digit is its own longest digit prefix |
| JsText.TrimStartAtDigit | src/services/dataParser.ts:23-24 | a text that starts with a digit is not trimmed and is parsed unsigned |
| JsText.ParseIntLeadingDecimal | src/services/dataParser.ts:23-24 | a text that starts with a decimal digit and no hex prefix parses to the value of its leading digits |
| JsText.ParseIntShowNat | src/services/dataParser.ts:23-24 | a printed natural number, followed by anything that does not continue it, parses back to that number |
| JsText.ParseIntShowInt | src/services/dataParser.ts:23-24 | every printed integer, negative ones included, parses back to itself |
| JsText.ParseIntNoDigits | src/services/dataParser.ts:23-24 | a text with no decimal digit at all parses to NaN |
| DataParser.ParseTariffData | src/services/dataParser.ts:5-14 | the defaulted reciprocal and fentanyl rates and the range text are never falsy, the total is the one computed from the same record, and missing sources become the empty list |
| DataParser.HtsBreakdown | src/services/dataParser.ts:29-72 | five lines in the fixed code order; each carries the view's reciprocal and fentanyl rates and a Section 301 sub-rate of 25, or 27.5 for 4407.91-99, and its total stacks the three; the line totals do not include the Section 232 rate |
| DataParser.Scenarios | src/services/dataParser.ts:74-104 | three scenarios with ids A, B and C and probabilities 50, 25 and 25, each positive, adding up to 100 |
| DataParser.CalculateCompanyImpact | src/services/dataParser.ts:106-134 | the four inputs come back unchanged, and the jobs at risk are a number exactly when the revenue is not 0 (0/0 is NaN) |
| DataParserProperties.FormatTotalReadsBack | src/services/dataParser.ts:26 | two non-negative bounds print as a total that reads back as those two bounds, and the text has a `-` exactly when they differ |
| DataParserProperties.FormatTotalForms | src/services/dataParser.ts:26 | (helper for RangeTotal) two known bounds print as `"{min}%"` when equal and as `"{min}-{max}%"` otherwise |
| DataParserProperties.RangeBounds | src/services/dataParser.ts:22-24 | the range text `"lo-hi"` gives the low bound lo and the high bound hi |
| DataParserProperties.DefaultRangeBounds | src/services/dataParser.ts:22-24 | the default range `"25-30"` gives the bounds 25 and 30 |
| DataParserProperties.SameDefaultsSameTotal | src/services/dataParser.ts:17-27 | the total depends on the record only through the defaulted rates and the defaulted range text |
| DataParserProperties.SameBoundsSameTotal | src/services/dataParser.ts:17-27 | two records with the same defaulted base rate and the same range bounds have the same total, whatever their range texts |
| DataParserProperties.RangeTotal | src/services/dataParser.ts:17-27 | for a range `"lo-hi"`, the bounds are the defaulted rates plus lo and plus hi, and the total is the single or the range form of those sums |
| DataParserProperties.TotalFromRangeBounds | src/services/dataParser.ts:17-27 | range bounds lo and hi give the totals base + lo and base + hi, printed in the single or the range form |
| DataParserProperties.BoundsFromRange | src/services/dataParser.ts:18-24 | (helper for RangeTotal) range bounds lo and hi give the total bounds base + lo and base + hi |
| DataParserProperties.TotalFromBounds | src/services/dataParser.ts:26 | (helper for RangeTotal) known total bounds print as `"{min}%"` when equal and as `"{min}-{max}%"` otherwise |
| DataParserProperties.EmptyRecordTotal | src/services/dataParser.ts:17-27 | the record with every field missing has the total `"45-50%"` |
| DataParserProperties.FalsyFieldsTakeDefaults | src/services/dataParser.ts:18-22 | a missing, NaN or 0 rate gives the same total as its default, and so does a missing or empty range text |
| DataParserProperties.ExtraPiecesIgnored | src/services/dataParser.ts:22-24 | in a range text with more than two pieces, the pieces after the second do not change the total |
| DataParserProperties.ExtraPiecesBounds | src/services/dataParser.ts:22-24 | the pieces after the second do not change the range bounds |
| DataParserProperties.EmptySecondPieceIgnored | src/services/dataParser.ts:24 | a range text `"a-"` with an empty second piece gives the same total as `"a"` |
| DataParserProperties.SingleValueWithoutDash | src/services/dataParser.ts:22-26 | a range text without `-` gives equal bounds, so the total is `"{n}%"` when the text has a number and `"NaN-NaN%"` when it has none |
| DataParserProperties.ParsedTotalConsistent | src/services/dataParser.ts:5-14 | recomputing the total from the view's own fields gives the view's total |
| DataParserProperties.ParsedDefaults | src/services/dataParser.ts:5-14 | the empty record's view holds every default, the clock's date, no sources and the total `"45-50%"` |
| DataParserProperties.ParsedFieldsOrDefaults | src/services/dataParser.ts:5-14 | for every record, each truthy field is reported as given and each falsy one as its default: reciprocal 10, fentanyl 10, Section 232 0, range `"25-30"`, sources `[]`, and the clock's time for `lastUpdated` |
| DataParserProperties.HtsIgnoresSection301Text | src/services/dataParser.ts:29-72 | the breakdown ignores the view's Section 301 text and its total |
| DataParserProperties.HtsWithinDefaultRange | src/services/dataParser.ts:5-72 | when the record has no truthy range text and no truthy Section 232 rate (the line totals leave Section 232 out), the view's total reads back as the bounds base + 25 and base + 30, and every line's total lies within them |
| DataParserProperties.ScenarioIdsDistinct | src/services/dataParser.ts:74-104 | the three scenario ids are pairwise distinct |
| DataParserProperties.ImpactClosedForm | src/services/dataParser.ts:112-122 | the revenue at risk is the revenue times 90% of the China export share; the expected revenue is the revenue less 5.3%; the jobs at risk are the headcount times that share, rounded and independent of the revenue; the expected jobs are 5.3% of the headcount, rounded; only the jobs-at-risk conjunct goes beyond regrouping the source's products |
| DataParserProperties.JobsAtRiskIgnoresRevenue | src/services/dataParser.ts:121 | for any two non-zero revenues, the jobs at risk are the same |
| DataParserProperties.ExpectedFiguresShareRate | src/services/dataParser.ts:118-122 | the expected revenue lost and the expected jobs lost use the same 5.3% rate |
| DataParserProperties.ImpactBounds | src/components/ImpactCalculator.tsx:40-53 | with a positive revenue, percentages in [0, 100] and a whole headcount: at most 90% of the revenue is at risk, the expected revenue is positive and at most the revenue, and both job figures lie between 0 and the headcount |
| DataParserProperties.RiskShareWithin | src/components/ImpactCalculator.tsx:40-53 | percentages in [0, 100] put the share at risk in [0, 0.9] |
| DataParserProperties.RoundedShare | src/services/dataParser.ts:121-122 | at most 90% of a whole headcount rounds to a number between 0 and the headcount |
| DataParserProperties.RoundWithin | src/services/dataParser.ts:121-122 | rounding a value in [0, 0.9n] gives a whole number in [0, n] |
| DataParserProperties.ImpactExample | src/services/dataParser.ts:106-134 | the calculator's default inputs ($45M, 35%, 60%, 185 employees) give 8.505, 35 jobs, 42.615 and 10 jobs |

## Left out

- Fetching, caching and aggregating the raw record, the tariff scraper, the
  trade-statistics client and the React components are not part of this
  model. Only the calculator class is modelled.
- `Date.now()` is the parameter `now`. Converting a stamp into a calendar
  date is not modelled: a `Date` holds the stamp it was built from.
- Raw rates are integers or NaN. A fractional raw rate and its decimal
  printing are not modelled. Neither are IEEE-754 rounding, precision
  beyond 2^53 and exponent notation in number-to-string.
- `parseInt` values are exact integers. A digit run long enough to lose
  precision as a double is not modelled.
- A raw `section301` that is truthy but not a string would make `split`
  throw a TypeError. The model types it as text, so that case is not
  modelled.
- `calculateCompanyImpact` works on exact reals. Floating-point rounding of
  the products, and NaN or infinite inputs, are not modelled. A zero
  revenue gives NaN jobs at risk (0/0), and the other figures stay
  numbers.
- DataParserProperties.ImpactBounds: stated only for a whole, non-negative
  headcount, a positive revenue and percentages in [0, 100], which the
  calculator's inputs do not enforce. A fractional headcount such as 0.6
  can round to a job count above it.
- `getScenarios`: its ids and probabilities are stated. Its text fields
  are modelled verbatim, but no property is stated about them.
- The comment beside the expected-revenue line describes a 12.5% weighted
  decline, while the code uses 5.3%. The model follows the code.
