/** What the rate calculator promises: the defaulting rules, how the Section
    301 range becomes the effective total and reads back from it, the
    consistency of the parsed view, the breakdown's relation to the range,
    and the bounds of the company-impact projection. */
module DataParserProperties {
  import opened JsValues
  import opened JsText
  import opened DataParser

  // ---------------------------------------------------------------------
  // Formatting the total

  /** Both bounds known and non-negative: the total reads back as the two
      bounds, and it has the range form exactly when they differ. */
  lemma FormatTotalReadsBack(min: nat, max: nat)
    ensures ReadTotal(FormatTotal(Num(min), Num(max))) == Some((min, max))
    ensures '-' in FormatTotal(Num(min), Num(max)) <==> min != max
  {
    var a, b := ShowNat(min), ShowNat(max);
    var s := FormatTotal(Num(min), Num(max));
    assert '-' !in a && '-' !in b by {
      assert forall i :: 0 <= i < |a| ==> IsDecimalDigit(a[i]);
      assert forall i :: 0 <= i < |b| ==> IsDecimalDigit(b[i]);
    }
    if min == max {
      assert s == a + "%";
      assert s[..|s| - 1] == a;
      SplitWithoutSeparator(a, '-');
      assert '-' !in s by { assert forall i :: 0 <= i < |s| ==> s[i] == '%' || s[i] in a; }
    } else {
      assert s == a + "-" + b + "%";
      assert s[..|s| - 1] == Join([a, b], '-');
      SplitJoin([a, b], '-');
      assert s[|a|] == '-';
    }
  }

  // ---------------------------------------------------------------------
  // calculateEffectiveTotal

  /** The range text "lo-hi" gives the bounds lo and hi. */
  lemma RangeBounds(lo: nat, hi: nat)
    ensures Section301Bounds(ShowNat(lo) + "-" + ShowNat(hi)) == (Num(lo), Num(hi))
  {
    var a, b := ShowNat(lo), ShowNat(hi);
    assert '-' !in a && '-' !in b by {
      assert forall i :: 0 <= i < |a| ==> IsDecimalDigit(a[i]);
      assert forall i :: 0 <= i < |b| ==> IsDecimalDigit(b[i]);
    }
    assert a + "-" + b == Join([a, b], '-');
    SplitJoin([a, b], '-');
    ParseIntShowNat(lo, []);
    ParseIntShowNat(hi, []);
    assert a + [] == a && b + [] == b;
  }

  /** The default range "25-30" gives the bounds 25 and 30. */
  lemma DefaultRangeBounds()
    ensures Section301Bounds(DefaultSection301) == (Num(25), Num(30))
  {
    assert ShowNat(25) == "25" && ShowNat(30) == "30";
    assert DefaultSection301 == ShowNat(25) + "-" + ShowNat(30);
    RangeBounds(25, 30);
  }

  /** The total depends on the record only through the defaulted rates and
      the defaulted range text. */
  lemma SameDefaultsSameTotal(r1: RawTariff, r2: RawTariff)
    requires BaseRate(r1) == BaseRate(r2)
    requires TextOr(r1.section301, DefaultSection301) == TextOr(r2.section301, DefaultSection301)
    ensures CalculateEffectiveTotal(r1) == CalculateEffectiveTotal(r2)
  {
  }

  /** Two known bounds print as "{min}%" exactly when they are equal, else
      as "{min}-{max}%". */
  lemma FormatTotalForms(min: int, max: int)
    ensures FormatTotal(Num(min), Num(max)) ==
      if min == max then ShowInt(min) + "%" else ShowInt(min) + "-" + ShowInt(max) + "%"
  {
  }

  /** A Section 301 range "lo-hi": the bounds are the defaulted rates plus lo
      and plus hi, and the total is "{min}%" exactly when they are equal,
      else "{min}-{max}%". */
  lemma RangeTotal(raw: RawTariff, lo: nat, hi: nat)
    requires TextOr(raw.section301, DefaultSection301) == ShowNat(lo) + "-" + ShowNat(hi)
    ensures TotalBounds(raw) == (Num(BaseRate(raw) + lo), Num(BaseRate(raw) + hi))
    ensures CalculateEffectiveTotal(raw) ==
      if lo == hi then ShowInt(BaseRate(raw) + lo) + "%"
      else ShowInt(BaseRate(raw) + lo) + "-" + ShowInt(BaseRate(raw) + hi) + "%"
  {
    RangeBounds(lo, hi);
    TotalFromRangeBounds(raw, lo, hi);
  }

  /** Range bounds lo and hi give the totals base + lo and base + hi, printed
      as one number when they are equal and as a range otherwise. */
  lemma TotalFromRangeBounds(raw: RawTariff, lo: int, hi: int)
    requires Section301Bounds(TextOr(raw.section301, DefaultSection301)) == (Num(lo), Num(hi))
    ensures TotalBounds(raw) == (Num(BaseRate(raw) + lo), Num(BaseRate(raw) + hi))
    ensures CalculateEffectiveTotal(raw) ==
      if lo == hi then ShowInt(BaseRate(raw) + lo) + "%"
      else ShowInt(BaseRate(raw) + lo) + "-" + ShowInt(BaseRate(raw) + hi) + "%"
  {
    BoundsFromRange(raw, lo, hi);
    TotalFromBounds(raw, BaseRate(raw) + lo, BaseRate(raw) + hi);
  }

  lemma BoundsFromRange(raw: RawTariff, lo: int, hi: int)
    requires Section301Bounds(TextOr(raw.section301, DefaultSection301)) == (Num(lo), Num(hi))
    ensures TotalBounds(raw) == (Num(BaseRate(raw) + lo), Num(BaseRate(raw) + hi))
  {
  }

  /** Known bounds min and max print as "{min}%" when equal, else as
      "{min}-{max}%". */
  lemma TotalFromBounds(raw: RawTariff, min: int, max: int)
    requires TotalBounds(raw) == (Num(min), Num(max))
    ensures CalculateEffectiveTotal(raw) ==
      if min == max then ShowInt(min) + "%" else ShowInt(min) + "-" + ShowInt(max) + "%"
  {
    FormatTotalForms(min, max);
  }

  /** Two records with the same defaulted base rate and the same range
      bounds have the same total, whatever their range texts. */
  lemma SameBoundsSameTotal(r1: RawTariff, r2: RawTariff)
    requires BaseRate(r1) == BaseRate(r2)
    requires Section301Bounds(TextOr(r1.section301, DefaultSection301))
          == Section301Bounds(TextOr(r2.section301, DefaultSection301))
    ensures CalculateEffectiveTotal(r1) == CalculateEffectiveTotal(r2)
  {
  }

  /** The empty record: 10 + 10 + 0 + 25 and + 30, i.e. "45-50%". */
  lemma EmptyRecordTotal()
    ensures CalculateEffectiveTotal(EmptyRaw) == "45-50%"
  {
    DefaultRangeBounds();
    TotalFromRangeBounds(EmptyRaw, 25, 30);
    assert ShowNat(45) == "45" && ShowNat(50) == "50";
  }

  /** A falsy reciprocal, fentanyl or Section 232 rate (missing, NaN or an
      explicit 0) counts as its default; so does a missing or empty Section
      301 range. */
  lemma FalsyFieldsTakeDefaults(raw: RawTariff, rate: Option<JsNum>, range: Option<string>)
    requires !IsTruthyNum(rate) && !IsTruthyText(range)
    ensures CalculateEffectiveTotal(raw.(reciprocal := rate))
         == CalculateEffectiveTotal(raw.(reciprocal := Some(Num(DefaultReciprocal))))
    ensures CalculateEffectiveTotal(raw.(fentanyl := rate))
         == CalculateEffectiveTotal(raw.(fentanyl := Some(Num(DefaultFentanyl))))
    ensures CalculateEffectiveTotal(raw.(section232 := rate))
         == CalculateEffectiveTotal(raw.(section232 := None))
    ensures CalculateEffectiveTotal(raw.(section301 := range))
         == CalculateEffectiveTotal(raw.(section301 := Some(DefaultSection301)))
  {
    SameDefaultsSameTotal(raw.(reciprocal := rate), raw.(reciprocal := Some(Num(DefaultReciprocal))));
    SameDefaultsSameTotal(raw.(fentanyl := rate), raw.(fentanyl := Some(Num(DefaultFentanyl))));
    SameDefaultsSameTotal(raw.(section232 := rate), raw.(section232 := None));
    SameDefaultsSameTotal(raw.(section301 := range), raw.(section301 := Some(DefaultSection301)));
  }

  /** A range whose first two pieces are followed by more: the rest is
      ignored. */
  lemma ExtraPiecesIgnored(raw: RawTariff, a: string, b: string, rest: string)
    requires '-' !in a && '-' !in b
    requires raw.section301 == Some(a + "-" + b + "-" + rest)
    ensures CalculateEffectiveTotal(raw) == CalculateEffectiveTotal(raw.(section301 := Some(a + "-" + b)))
  {
    ExtraPiecesBounds(a, b, rest);
    SameBoundsSameTotal(raw, raw.(section301 := Some(a + "-" + b)));
  }

  lemma ExtraPiecesBounds(a: string, b: string, rest: string)
    requires '-' !in a && '-' !in b
    ensures Section301Bounds(a + "-" + b + "-" + rest) == Section301Bounds(a + "-" + b)
  {
    assert a + "-" + b + "-" + rest == a + ['-'] + (b + ['-'] + rest);
    SplitAfterPiece(a, b + ['-'] + rest, '-');
    SplitAfterPiece(b, rest, '-');
    assert a + "-" + b == a + ['-'] + b;
    SplitAfterPiece(a, b, '-');
    SplitWithoutSeparator(b, '-');
  }

  /** A range with nothing after its `-`: the second bound is the first. */
  lemma EmptySecondPieceIgnored(raw: RawTariff, a: string)
    requires '-' !in a && a != ""
    requires raw.section301 == Some(a + "-")
    ensures CalculateEffectiveTotal(raw) == CalculateEffectiveTotal(raw.(section301 := Some(a)))
  {
    assert a + "-" == a + ['-'] + "";
    SplitAfterPiece(a, "", '-');
    SplitWithoutSeparator(a, '-');
    SameBoundsSameTotal(raw, raw.(section301 := Some(a)));
  }

  /** A range with no `-`: both bounds come from the one piece, so the total
      is "{n}%" when the piece has a number and "NaN-NaN%" when it has none
      (NaN is not strictly equal to itself). */
  lemma SingleValueWithoutDash(raw: RawTariff)
    requires '-' !in TextOr(raw.section301, DefaultSection301)
    ensures TotalBounds(raw).0 == TotalBounds(raw).1
    ensures TotalBounds(raw).0.Num? ==>
      CalculateEffectiveTotal(raw) == ShowInt(TotalBounds(raw).0.n) + "%"
    ensures TotalBounds(raw).0.NaN? ==> CalculateEffectiveTotal(raw) == "NaN-NaN%"
  {
    SplitWithoutSeparator(TextOr(raw.section301, DefaultSection301), '-');
  }

  // ---------------------------------------------------------------------
  // parseTariffData

  /** The view reports the very rates its total was computed from: computing
      the total again from the view's own fields gives the same text. */
  lemma ParsedTotalConsistent(raw: RawTariff, now: int)
    ensures CalculateEffectiveTotal(AsRaw(ParseTariffData(raw, now)))
         == ParseTariffData(raw, now).effectiveTotal
  {
    var t := ParseTariffData(raw, now);
    assert BaseRate(AsRaw(t)) == BaseRate(raw);
    assert TextOr(AsRaw(t).section301, DefaultSection301) == TextOr(raw.section301, DefaultSection301);
  }

  /** The empty record's view: every default, the clock's date, no sources. */
  lemma ParsedDefaults(now: int)
    ensures ParseTariffData(EmptyRaw, now)
         == TariffData(10, 10, "25-30", 0, "45-50%", DateOf(Millis(now)), [])
  {
    EmptyRecordTotal();
  }

  /** A truthy field is reported as given; a falsy one (missing, NaN, 0 or
      empty) is reported as its default. */
  lemma ParsedFieldsOrDefaults(raw: RawTariff, now: int)
    ensures IsTruthyNum(raw.reciprocal) ==> ParseTariffData(raw, now).reciprocal == raw.reciprocal.value.n
    ensures !IsTruthyNum(raw.reciprocal) ==> ParseTariffData(raw, now).reciprocal == DefaultReciprocal
    ensures IsTruthyNum(raw.fentanyl) ==> ParseTariffData(raw, now).fentanyl == raw.fentanyl.value.n
    ensures !IsTruthyNum(raw.fentanyl) ==> ParseTariffData(raw, now).fentanyl == DefaultFentanyl
    ensures IsTruthyNum(raw.section232) ==> ParseTariffData(raw, now).section232 == raw.section232.value.n
    ensures !IsTruthyNum(raw.section232) ==> ParseTariffData(raw, now).section232 == DefaultSection232
    ensures IsTruthyText(raw.section301) ==> ParseTariffData(raw, now).section301 == raw.section301.value
    ensures !IsTruthyText(raw.section301) ==> ParseTariffData(raw, now).section301 == DefaultSection301
    ensures raw.sources.Some? ==> ParseTariffData(raw, now).sources == raw.sources.value
    ensures raw.sources.None? ==> ParseTariffData(raw, now).sources == []
    ensures IsTruthyStamp(raw.lastUpdated) ==> ParseTariffData(raw, now).lastUpdated == DateOf(raw.lastUpdated.value)
    ensures !IsTruthyStamp(raw.lastUpdated) ==> ParseTariffData(raw, now).lastUpdated == DateOf(Millis(now))
  {
  }

  // ---------------------------------------------------------------------
  // getHTSBreakdown

  /** The breakdown depends on the view's reciprocal and fentanyl rates only,
      never on its Section 301 text or its total. */
  lemma HtsIgnoresSection301Text(t: TariffData, range: string, total: string)
    ensures HtsBreakdown(t.(section301 := range, effectiveTotal := total)) == HtsBreakdown(t)
  {
  }

  /** Under the default range, every line's total lies within the effective
      total's bounds, which read back from the view's total text. */
  lemma HtsWithinDefaultRange(raw: RawTariff, now: int)
    requires !IsTruthyText(raw.section301) && !IsTruthyNum(raw.section232)
    requires NumOr(raw.reciprocal, DefaultReciprocal) + NumOr(raw.fentanyl, DefaultFentanyl) >= 0
    ensures var t := ParseTariffData(raw, now);
      ReadTotal(t.effectiveTotal) == Some((t.reciprocal + t.fentanyl + 25, t.reciprocal + t.fentanyl + 30))
    ensures var t := ParseTariffData(raw, now);
      forall row :: row in HtsBreakdown(t) ==>
        (t.reciprocal + t.fentanyl + 25) as real <= row.total <= (t.reciprocal + t.fentanyl + 30) as real
  {
    DefaultRangeBounds();
    TotalFromRangeBounds(raw, 25, 30);
    FormatTotalReadsBack(BaseRate(raw) + 25, BaseRate(raw) + 30);
  }

  // ---------------------------------------------------------------------
  // getScenarios

  /** The three scenarios are distinct futures. */
  lemma ScenarioIdsDistinct()
    ensures forall i, j :: 0 <= i < j < |Scenarios()| ==> Scenarios()[i].id != Scenarios()[j].id
  {
  }

  // ---------------------------------------------------------------------
  // calculateCompanyImpact

  /** The share of the revenue at risk: 90% of the China export share. */
  function RiskShare(exportPct: real, chinaPct: real): real
  {
    (exportPct / 100.0) * (chinaPct / 100.0) * 0.9
  }

  /** The four figures in closed form. The point is the jobs at risk: the
      revenue cancels out, leaving the risk share of the headcount, rounded.
      The other three conjuncts only regroup the source's products (the
      risk share of the revenue, the revenue less 5.3%, and 5.3% of the
      headcount, rounded) for the lemmas below. */
  lemma ImpactClosedForm(revenue: real, exportPct: real, chinaPct: real, headcount: real)
    ensures var impact := CalculateCompanyImpact(revenue, exportPct, chinaPct, headcount);
      && impact.revenueAtRisk == revenue * RiskShare(exportPct, chinaPct)
      && impact.expectedRevenue == revenue - 0.053 * revenue
      && (revenue != 0.0 ==> impact.jobsAtRisk == Num(Round(headcount * RiskShare(exportPct, chinaPct))))
      && impact.expectedJobs == Round(headcount * 0.053)
  {
    var share := RiskShare(exportPct, chinaPct);
    var atRisk := revenue * (exportPct / 100.0) * (chinaPct / 100.0) * 0.9;
    assert atRisk == revenue * share;
    if revenue != 0.0 {
      assert CalculateCompanyImpact(revenue, exportPct, chinaPct, headcount).jobsAtRisk
          == Num(Round(headcount * (atRisk / revenue)));
      assert atRisk / revenue == (revenue * share) / revenue == share;
    }
  }

  /** Jobs at risk do not depend on the revenue figure. */
  lemma JobsAtRiskIgnoresRevenue(r1: real, r2: real, exportPct: real, chinaPct: real, headcount: real)
    requires r1 != 0.0 && r2 != 0.0
    ensures CalculateCompanyImpact(r1, exportPct, chinaPct, headcount).jobsAtRisk
         == CalculateCompanyImpact(r2, exportPct, chinaPct, headcount).jobsAtRisk
  {
    ImpactClosedForm(r1, exportPct, chinaPct, headcount);
    ImpactClosedForm(r2, exportPct, chinaPct, headcount);
  }

  /** The expected revenue and the expected job loss use the same 5.3% rate:
      the expected jobs lost are the headcount share of the expected revenue
      lost. */
  lemma ExpectedFiguresShareRate(revenue: real, exportPct: real, chinaPct: real, headcount: real)
    requires revenue != 0.0
    ensures var impact := CalculateCompanyImpact(revenue, exportPct, chinaPct, headcount);
      && (revenue - impact.expectedRevenue) / revenue == 0.053
      && impact.expectedJobs == Round(headcount * ((revenue - impact.expectedRevenue) / revenue))
  {
    ImpactClosedForm(revenue, exportPct, chinaPct, headcount);
    assert (revenue - (revenue - 0.053 * revenue)) / revenue == (0.053 * revenue) / revenue;
  }

  /** With a positive revenue, a whole non-negative headcount and both
      percentages in [0, 100]: at most 90% of the revenue is at risk, the
      expected revenue does not exceed the revenue, and neither job figure
      is negative or exceeds the headcount. */
  lemma ImpactBounds(revenue: real, exportPct: real, chinaPct: real, headcount: nat)
    requires revenue > 0.0
    requires 0.0 <= exportPct <= 100.0 && 0.0 <= chinaPct <= 100.0
    ensures var impact := CalculateCompanyImpact(revenue, exportPct, chinaPct, headcount as real);
      && 0.0 <= impact.revenueAtRisk <= 0.9 * revenue
      && 0.0 < impact.expectedRevenue <= revenue
      && impact.jobsAtRisk.Num? && 0 <= impact.jobsAtRisk.n <= headcount
      && 0 <= impact.expectedJobs <= headcount
  {
    var h := headcount as real;
    var share := RiskShare(exportPct, chinaPct);
    ImpactClosedForm(revenue, exportPct, chinaPct, h);
    RiskShareWithin(exportPct, chinaPct);
    ScaledWithin(revenue, share, 0.9);
    RoundedShare(headcount, share);
    RoundedShare(headcount, 0.053);
  }

  /** Percentages in [0, 100] put the risk share in [0, 0.9]. */
  lemma RiskShareWithin(exportPct: real, chinaPct: real)
    requires 0.0 <= exportPct <= 100.0 && 0.0 <= chinaPct <= 100.0
    ensures 0.0 <= RiskShare(exportPct, chinaPct) <= 0.9
  {
    var e, c := exportPct / 100.0, chinaPct / 100.0;
    ScaledWithin(e, c, 1.0);
    assert 0.0 <= e * c <= 1.0;
    assert RiskShare(exportPct, chinaPct) == (e * c) * 0.9;
  }

  /** Scaling a non-negative amount by a factor in [0, bound] keeps it
      between 0 and bound times the amount. */
  lemma ScaledWithin(x: real, factor: real, bound: real)
    requires 0.0 <= x && 0.0 <= factor <= bound
    ensures 0.0 <= x * factor <= x * bound
  {
  }

  /** A share of at most 90% of a whole headcount rounds to a whole number
      between 0 and the headcount. */
  lemma RoundedShare(headcount: nat, share: real)
    requires 0.0 <= share <= 0.9
    ensures 0 <= Round(headcount as real * share) <= headcount
  {
    ScaledWithin(headcount as real, share, 0.9);
    RoundWithin(headcount as real * share, headcount);
  }

  /** Rounding a value in [0, 0.9n] gives a whole number in [0, n]. */
  lemma RoundWithin(x: real, n: nat)
    requires 0.0 <= x <= 0.9 * n as real
    ensures 0 <= Round(x) <= n
  {
  }

  /** The calculator's default inputs: $45M revenue, 35% exports, 60% to
      China, 185 employees. */
  lemma ImpactExample()
    ensures CalculateCompanyImpact(45.0, 35.0, 60.0, 185.0)
         == CompanyImpact(45.0, 35.0, 60.0, 185.0, 8.505, Num(35), 42.615, 10)
  {
    ImpactClosedForm(45.0, 35.0, 60.0, 185.0);
    RoundUnique(34.965, 35);
    RoundUnique(9.805, 10);
  }
}
