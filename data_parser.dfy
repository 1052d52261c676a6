/** The rate calculator of the tariff radar (class `DataParser`): it turns a
    loosely typed tariff record into the display view with its effective
    total, builds the per-HTS-code breakdown, returns the forecast scenarios
    and projects a company's exposure. The class has no fields and every
    method is a single expression, so each is a function here. */
module DataParser {
  import opened JsValues
  import opened JsText

  // ---------------------------------------------------------------------
  // Data

  /** What a raw record's `lastUpdated` may hold: text or a millisecond count. */
  datatype Stamp = Text(text: string) | Millis(ms: int)

  /** A `Date` built from a stamp; its calendar meaning is not modelled. */
  datatype Date = DateOf(stamp: Stamp)

  /** The untyped record the aggregator hands over; every field may be missing. */
  datatype RawTariff = RawTariff(
    reciprocal: Option<JsNum>,
    fentanyl: Option<JsNum>,
    section301: Option<string>,
    section232: Option<JsNum>,
    lastUpdated: Option<Stamp>,
    sources: Option<seq<string>>)

  /** The display view of a tariff record. */
  datatype TariffData = TariffData(
    reciprocal: int,
    fentanyl: int,
    section301: string,
    section232: int,
    effectiveTotal: string,
    lastUpdated: Date,
    sources: seq<string>)

  /** One line of the HTS breakdown; the Section 301 sub-rate may be a half. */
  datatype HtsCode = HtsCode(
    code: string,
    description: string,
    reciprocal: int,
    fentanyl: int,
    section301: real,
    total: real)

  datatype Scenario = Scenario(
    id: string,
    name: string,
    probability: int,
    description: string,
    priceImpact: string,
    volumeImpact: string,
    jobsImpact: string)

  datatype CompanyImpact = CompanyImpact(
    revenue: real,
    exportPct: real,
    chinaPct: real,
    headcount: real,
    revenueAtRisk: real,
    jobsAtRisk: JsNum,
    expectedRevenue: real,
    expectedJobs: int)

  const DefaultReciprocal: int := 10
  const DefaultFentanyl: int := 10
  const DefaultSection232: int := 0
  /** The Section 301 range used when the record has none: "25-30". */
  const DefaultSection301: string := "25" + "-" + "30"

  /** The record with every field missing. */
  const EmptyRaw: RawTariff := RawTariff(None, None, None, None, None, None)

  /** The HTS codes of the breakdown, in display order. */
  const HtsCodeOrder: seq<string> := ["4407.11-19", "4407.21-29", "4407.91-99", "4408.10-90", "4412.31-34"]

  /** The one code whose Section 301 sub-rate is the average of the range. */
  const AveragedCode: string := "4407.91-99"

  // ---------------------------------------------------------------------
  // Effective total

  /** The Section 301 pieces the bounds are read from: the first, and the
      second when it exists and is non-empty, else the first again. */
  function UpperPiece(range: seq<string>): string
    requires |range| >= 1
  {
    if |range| >= 2 && range[1] != "" then range[1] else range[0]
  }

  /** The defaulted sum of the stacked non-301 components. */
  function BaseRate(data: RawTariff): int
  {
    NumOr(data.reciprocal, DefaultReciprocal) + NumOr(data.fentanyl, DefaultFentanyl)
    + NumOr(data.section232, DefaultSection232)
  }

  /** The low and high Section 301 rates a range text gives: `parseInt` of
      the first piece and of the upper piece. */
  function Section301Bounds(range: string): (JsNum, JsNum)
  {
    var pieces := Split(range, '-');
    (ParseInt(pieces[0]), ParseInt(UpperPiece(pieces)))
  }

  /** The low and high totals before formatting. */
  function TotalBounds(data: RawTariff): (JsNum, JsNum)
  {
    var bounds := Section301Bounds(TextOr(data.section301, DefaultSection301));
    (Plus(BaseRate(data), bounds.0), Plus(BaseRate(data), bounds.1))
  }

  /** `"{min}%"` when the bounds are strictly equal, else `"{min}-{max}%"`. */
  function FormatTotal(min: JsNum, max: JsNum): string
  {
    if StrictEquals(min, max) then ShowNum(min) + "%"
    else ShowNum(min) + "-" + ShowNum(max) + "%"
  }

  /** `calculateEffectiveTotal`. */
  function CalculateEffectiveTotal(data: RawTariff): string
  {
    var (min, max) := TotalBounds(data);
    FormatTotal(min, max)
  }

  /** Reads a total back: a numeral, or two numerals joined by `-`, then `%`. */
  function ReadTotal(s: string): Option<(int, int)>
  {
    if s == [] || s[|s| - 1] != '%' then None
    else
      var pieces := Split(s[..|s| - 1], '-');
      if |pieces| == 1 && IsNumeral(pieces[0]) then
        Some((DigitsValue(pieces[0], 10), DigitsValue(pieces[0], 10)))
      else if |pieces| == 2 && IsNumeral(pieces[0]) && IsNumeral(pieces[1]) then
        Some((DigitsValue(pieces[0], 10), DigitsValue(pieces[1], 10)))
      else None
  }

  // ---------------------------------------------------------------------
  // parseTariffData

  predicate IsTruthyStamp(v: Option<Stamp>)
  {
    v.Some? && match v.value
      case Text(t) => t != ""
      case Millis(m) => m != 0
  }

  /** `parseTariffData`; `now` stands for `Date.now()`. The defaulted rates
      are never falsy, the total is the one computed from the same record,
      and missing sources become the empty list. */
  function ParseTariffData(raw: RawTariff, now: int): (t: TariffData)
    ensures t.reciprocal != 0 && t.fentanyl != 0 && t.section301 != ""
    ensures t.effectiveTotal == CalculateEffectiveTotal(raw)
    ensures raw.sources.None? ==> t.sources == []
  {
    TariffData(
      NumOr(raw.reciprocal, DefaultReciprocal),
      NumOr(raw.fentanyl, DefaultFentanyl),
      TextOr(raw.section301, DefaultSection301),
      NumOr(raw.section232, DefaultSection232),
      CalculateEffectiveTotal(raw),
      DateOf(if IsTruthyStamp(raw.lastUpdated) then raw.lastUpdated.value else Millis(now)),
      if raw.sources.Some? then raw.sources.value else [])
  }

  /** The view's fields as a raw record again (`lastUpdated` as its stamp). */
  function AsRaw(t: TariffData): RawTariff
  {
    RawTariff(Some(Num(t.reciprocal)), Some(Num(t.fentanyl)), Some(t.section301),
              Some(Num(t.section232)), Some(t.lastUpdated.stamp), Some(t.sources))
  }

  // ---------------------------------------------------------------------
  // getHTSBreakdown

  function HtsRow(code: string, description: string, t: TariffData, subRate: real): HtsCode
  {
    HtsCode(code, description, t.reciprocal, t.fentanyl, subRate,
            t.reciprocal as real + t.fentanyl as real + subRate)
  }

  /** `getHTSBreakdown`: five lines in the fixed code order, each carrying the
      view's reciprocal and fentanyl rates and a sub-rate of 25, or 27.5 for
      the averaged code, and a total that stacks the three. */
  function HtsBreakdown(t: TariffData): (rows: seq<HtsCode>)
    ensures |rows| == |HtsCodeOrder|
    ensures forall i :: 0 <= i < |rows| ==> rows[i].code == HtsCodeOrder[i]
    ensures forall i :: 0 <= i < |rows| ==>
      rows[i].reciprocal == t.reciprocal && rows[i].fentanyl == t.fentanyl
    ensures forall i :: 0 <= i < |rows| ==>
      rows[i].section301 == (if rows[i].code == AveragedCode then 27.5 else 25.0)
    ensures forall i :: 0 <= i < |rows| ==>
      rows[i].total == rows[i].reciprocal as real + rows[i].fentanyl as real + rows[i].section301
  {
    [ HtsRow("4407.11-19", "Coniferous Wood (Sawn/Sliced)", t, 25.0),
      HtsRow("4407.21-29", "Tropical Wood (Sawn/Sliced)", t, 25.0),
      HtsRow("4407.91-99", "Other Wood (Hardwoods)", t, 27.5),
      HtsRow("4408.10-90", "Veneer Sheets", t, 25.0),
      HtsRow("4412.31-34", "Hardwood Plywood", t, 25.0) ]
  }

  // ---------------------------------------------------------------------
  // getScenarios

  function TotalProbability(s: seq<Scenario>): int
  {
    if s == [] then 0 else s[0].probability + TotalProbability(s[1..])
  }

  const ScenarioA: Scenario := Scenario("A", "Status Quo Extension", 50,
    "10% reciprocal rate extended beyond Nov 10, 2026. Current ~45-50% effective rate maintained.",
    "0% to -3%", "Stable", "Minimal")
  const ScenarioB: Scenario := Scenario("B", "Section 232 Addition", 25,
    "Commerce adds hardwoods to Section 232. New 10-25% tariff stacks (total: 55-75%).",
    "-15% to -20%", "-40% to -50%", "-1,500 to -2,500")
  const ScenarioC: Scenario := Scenario("C", "Reciprocal Reversion", 25,
    "Reciprocal rate reverts to 145%. Total effective 180-185%. Trade collapse.",
    "-30% to -40%", "-95% to -98%", "-4,000 to -6,000")

  /** `getScenarios`: three mutually exclusive futures A, B and C with
      probabilities 50, 25 and 25, which add up to 100. */
  function Scenarios(): (s: seq<Scenario>)
    ensures |s| == 3 && s[0].id == "A" && s[1].id == "B" && s[2].id == "C"
    ensures s[0].probability == 50 && s[1].probability == 25 && s[2].probability == 25
    ensures forall i :: 0 <= i < |s| ==> s[i].probability > 0
    ensures TotalProbability(s) == 100
  {
    var s := [ScenarioA, ScenarioB, ScenarioC];
    assert TotalProbability(s[2..]) == 25;
    assert TotalProbability(s[1..]) == 50 by { assert s[1..][1..] == s[2..]; }
    s
  }

  // ---------------------------------------------------------------------
  // calculateCompanyImpact

  /** `calculateCompanyImpact`. The inputs come back unchanged and the jobs
      at risk are a number exactly when the revenue is not 0 (0/0 is NaN);
      the closed forms of the four figures are stated in the lemmas. */
  function CalculateCompanyImpact(revenue: real, exportPct: real, chinaPct: real, headcount: real)
    : (impact: CompanyImpact)
    ensures impact.revenue == revenue && impact.exportPct == exportPct
    ensures impact.chinaPct == chinaPct && impact.headcount == headcount
    ensures impact.jobsAtRisk.Num? <==> revenue != 0.0
  {
    var chinaRevenue := revenue * (exportPct / 100.0) * (chinaPct / 100.0);
    // Scenario C: a 90% volume collapse of the China exports.
    var revenueAtRisk := chinaRevenue * 0.9;
    var expectedRevenue := revenue * 0.947;
    var jobsAtRisk := if revenue == 0.0 then NaN else Num(Round(headcount * (revenueAtRisk / revenue)));
    var expectedJobs := Round(headcount * 0.053);
    CompanyImpact(revenue, exportPct, chinaPct, headcount,
                  revenueAtRisk, jobsAtRisk, expectedRevenue, expectedJobs)
  }
}
