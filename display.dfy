/** The display helpers: a record's probability, its risk badge and its period label. */
module Display {
  import opened Values
  import opened Text
  import opened Entities
  import opened Normalizer

  /** `getPredictionProbability`: `default_probability || probability ||
      logistic_probability || ensemble_probability || 0`. */
  function PredictionProbability(p: Prediction): (r: real)
    ensures Truthy(p.defaultProbability) ==> r == p.defaultProbability.v
    ensures !Truthy(p.defaultProbability) && Truthy(p.probability) ==> r == p.probability.v
    ensures !Truthy(p.defaultProbability) && !Truthy(p.probability) && Truthy(p.logisticProbability)
            ==> r == p.logisticProbability.v
    ensures !Truthy(p.defaultProbability) && !Truthy(p.probability) && !Truthy(p.logisticProbability)
            ==> r == OrZero(p.ensembleProbability)
  {
    var chain := [p.defaultProbability, p.probability, p.logisticProbability, p.ensembleProbability];
    assert chain[0] == p.defaultProbability && chain[1] == p.probability;
    assert chain[2] == p.logisticProbability && chain[3] == p.ensembleProbability;
    FirstTruthy(chain)
  }

  /** A normalized record displays the probability its family reads first,
      whenever that field is set. */
  lemma NormalizedProbabilityIsPrimary(p: Prediction, kind: Kind, access: string, currentYear: string)
    requires Truthy(PrimaryProbability(p, kind))
    ensures PredictionProbability(NormalizeRecord(p, kind, access, currentYear)) == PrimaryProbability(p, kind).v
  {
  }

  /** A quarterly record that carries only a logistic probability displays it;
      one that carries no probability at all displays 0. */
  lemma QuarterlyProbabilityResolution(p: Prediction, access: string, currentYear: string)
    requires !Truthy(p.probability) && !Truthy(p.ensembleProbability)
    ensures PredictionProbability(NormalizeRecord(p, Quarterly, access, currentYear)) == OrZero(p.logisticProbability)
  {
  }

  /** The badge categories `getRiskBadgeColor` chooses between. */
  datatype RiskBadge = Low | Medium | High | Critical | Unknown

  /** `getRiskBadgeColor`: the category of `riskLevel?.toUpperCase()`. */
  function RiskBadgeFor(riskLevel: Option<string>): (b: RiskBadge)
    ensures b == Low <==> riskLevel.Some? && Upper(riskLevel.value) == "LOW"
    ensures b == Medium <==> riskLevel.Some? && Upper(riskLevel.value) == "MEDIUM"
    ensures b == High <==> riskLevel.Some? && Upper(riskLevel.value) == "HIGH"
    ensures b == Critical <==> riskLevel.Some? && Upper(riskLevel.value) == "CRITICAL"
  {
    if riskLevel.None? then Unknown
    else
      var level := Upper(riskLevel.value);
      if level == "LOW" then Low
      else if level == "MEDIUM" then Medium
      else if level == "HIGH" then High
      else if level == "CRITICAL" then Critical
      else Unknown
  }

  /** The badge does not depend on the case of the level. */
  lemma RiskBadgeIgnoresCase(level: string)
    ensures RiskBadgeFor(Some(level)) == RiskBadgeFor(Some(Upper(level)))
  {
    UpperIdempotent(level);
  }

  /** A record's year as a template literal renders it: absent reads "undefined". */
  function YearInTemplate(year: Option<string>): string {
    if year.Some? then year.value else "undefined"
  }

  /** `formatPredictionDate`: "<quarter> <year>" when a quarter is set, else the
      year, else "Unknown". */
  function FormatPredictionDate(p: Prediction): (caption: string)
    ensures Filled(p.reportingQuarter) ==>
      |caption| > |p.reportingQuarter.value| &&
      caption[..|p.reportingQuarter.value|] == p.reportingQuarter.value && caption[|p.reportingQuarter.value|] == ' ' &&
      caption[|p.reportingQuarter.value| + 1..] == YearInTemplate(p.reportingYear)
    ensures !Filled(p.reportingQuarter) && Filled(p.reportingYear) ==> caption == p.reportingYear.value
    ensures caption == "Unknown" <==>
      if Filled(p.reportingQuarter) then false
      else !Filled(p.reportingYear) || p.reportingYear.value == "Unknown"
  {
    if Filled(p.reportingQuarter) then
      var caption := p.reportingQuarter.value + " " + YearInTemplate(p.reportingYear);
      assert caption[|p.reportingQuarter.value|] == ' ';
      assert caption != "Unknown" by {
        if |caption| == 7 { assert "Unknown"[|p.reportingQuarter.value|] != ' '; }
      }
      caption
    else if Filled(p.reportingYear) then p.reportingYear.value
    else "Unknown"
  }

  /** A normalized quarterly record is labelled with its upper-cased quarter and
      its resolved year. */
  lemma NormalizedQuarterlyLabel(p: Prediction, access: string, currentYear: string)
    ensures FormatPredictionDate(NormalizeRecord(p, Quarterly, access, currentYear))
            == QuarterCode(p.reportingQuarter) + " " + YearText(p.reportingYear, currentYear)
  {
  }

  /** A normalized annual record without a quarter is labelled with its
      resolved year. */
  lemma NormalizedAnnualLabel(p: Prediction, access: string, currentYear: string)
    requires !Filled(p.reportingQuarter) && currentYear != ""
    ensures FormatPredictionDate(NormalizeRecord(p, Annual, access, currentYear)) == YearText(p.reportingYear, currentYear)
  {
  }
}
