/** The entity normalizer: from a response body to the canonical records of one dataset. */
module Normalizer {
  import opened Values
  import opened Text
  import opened Entities
  import opened Scope

  /** The value `data.items || data.predictions || data || []` picks, read
      through `Array.isArray`: its records when it is an array, None otherwise. */
  function ItemList(d: Payload): (r: Option<seq<Prediction>>)
    ensures d.NoData? ==> r == Some([])
    ensures d.ArrayData? ==> r == Some(d.records)
    ensures d.ScalarData? ==> r.None?
    ensures d.ObjectData? ==> (r.Some? <==> d.items.ListValue? || (d.items.Unset? && d.predictions.ListValue?))
    ensures d.ObjectData? && d.items.ListValue? ==> r == Some(d.items.records)
    ensures d.ObjectData? && d.items.Unset? && d.predictions.ListValue? ==> r == Some(d.predictions.records)
  {
    match d
    case NoData => Some([])
    case ArrayData(xs) => Some(xs)
    case ScalarData => None
    case ObjectData(items, predictions, _, _) =>
      if !items.Unset? then FieldList(items)
      else if !predictions.Unset? then FieldList(predictions)
      else None
  }

  function FieldList(f: Field): Option<seq<Prediction>> {
    if f.ListValue? then Some(f.records) else None
  }

  /** `data.pages` and `data.total`; only an object body carries them. */
  function MetaPages(d: Payload): (pages: Option<int>)
    ensures d.ObjectData? ==> pages == d.pages
    ensures !d.ObjectData? ==> pages.None?
  {
    if d.ObjectData? then d.pages else None
  }

  function MetaTotal(d: Payload): (total: Option<int>)
    ensures d.ObjectData? ==> total == d.total
    ensures !d.ObjectData? ==> total.None?
  {
    if d.ObjectData? then d.total else None
  }

  /** Which endpoints a batch came from: the platform-wide ones, or the scoped
      ones fetched for a user with the given role. */
  datatype Origin = SystemOrigin | UserOrigin(role: Option<string>)

  /** The scope label a record receives. */
  function RecordAccess(p: Prediction, origin: Origin): string {
    match origin
    case SystemOrigin => System
    case UserOrigin(role) => UserRecordAccess(p, role)
  }

  /** `reporting_year?.toString() || currentYear` */
  function YearText(raw: Option<string>, currentYear: string): (y: string)
    ensures Filled(raw) ==> y == raw.value
    ensures !Filled(raw) ==> y == currentYear
  {
    if Filled(raw) then raw.value else currentYear
  }

  /** `reporting_quarter?.toUpperCase() || "Q1"` */
  function QuarterCode(raw: Option<string>): (q: string)
    ensures q != ""
    ensures Filled(raw) ==> q == Upper(raw.value)
    ensures !Filled(raw) ==> q == "Q1"
    ensures forall i | 0 <= i < |q| :: !('a' <= q[i] <= 'z')
  {
    if raw.Some? && Upper(raw.value) != "" then Upper(raw.value) else "Q1"
  }

  /** The probability field a dataset family reads first. */
  function PrimaryProbability(p: Prediction, kind: Kind): Num {
    if kind == Annual then p.probability else p.logisticProbability
  }

  /** The `financial_ratios` literal of a family. The quarterly `roa` slot
      carries `return_on_capital`, not `return_on_assets`. */
  function RatiosFor(p: Prediction, kind: Kind): (r: Ratios)
    ensures kind == Annual ==>
      r.AnnualRatios? && r.ltdtc == p.longTermDebtToTotalCapital &&
      r.roa == p.returnOnAssets && r.ebitint == p.ebitToInterestExpense
    ensures kind == Quarterly ==>
      r.QuarterlyRatios? && r.ltdtc == p.longTermDebtToTotalCapital &&
      r.sga == p.sgaMargin && r.roa == p.returnOnCapital && r.tdte == p.totalDebtToEbitda
  {
    match kind
    case Annual => AnnualRatios(p.longTermDebtToTotalCapital, p.returnOnAssets, p.ebitToInterestExpense)
    case Quarterly => QuarterlyRatios(p.longTermDebtToTotalCapital, p.sgaMargin, p.returnOnCapital, p.totalDebtToEbitda)
  }

  /** One record's transform: the spread of the raw record with the derived
      fields set. */
  function NormalizeRecord(p: Prediction, kind: Kind, access: string, currentYear: string): (q: Prediction)
    ensures q.defaultProbability.Value?
    ensures Truthy(PrimaryProbability(p, kind)) ==> q.defaultProbability == PrimaryProbability(p, kind)
    ensures !Truthy(PrimaryProbability(p, kind)) ==> q.defaultProbability == Value(0.0)
    ensures q.riskCategory == p.riskLevel
    ensures q.reportingYear == Some(YearText(p.reportingYear, currentYear))
    ensures kind == Quarterly ==> q.reportingQuarter == Some(QuarterCode(p.reportingQuarter))
    ensures kind == Annual ==> q.reportingQuarter == p.reportingQuarter
    ensures q.organizationAccess == Some(access)
    ensures q.financialRatios == Some(RatiosFor(p, kind))
    ensures q.(defaultProbability := p.defaultProbability, riskCategory := p.riskCategory,
               reportingYear := p.reportingYear, reportingQuarter := p.reportingQuarter,
               organizationAccess := p.organizationAccess, financialRatios := p.financialRatios) == p
  {
    var base := p.(defaultProbability := Value(OrZero(PrimaryProbability(p, kind))),
                   riskCategory := p.riskLevel,
                   reportingYear := Some(YearText(p.reportingYear, currentYear)),
                   organizationAccess := Some(access),
                   financialRatios := Some(RatiosFor(p, kind)));
    if kind == Quarterly then base.(reportingQuarter := Some(QuarterCode(p.reportingQuarter))) else base
  }

  /** `items.map(...)` over one batch. */
  function NormalizeBatch(raw: seq<Prediction>, kind: Kind, origin: Origin, currentYear: string): (r: seq<Prediction>)
    ensures |r| == |raw|
    ensures forall i | 0 <= i < |raw| ::
      r[i] == NormalizeRecord(raw[i], kind, RecordAccess(raw[i], origin), currentYear)
  {
    if raw == [] then []
    else [NormalizeRecord(raw[0], kind, RecordAccess(raw[0], origin), currentYear)]
         + NormalizeBatch(raw[1..], kind, origin, currentYear)
  }

  /** One dataset from one response: the normalized item list, or `[]` when the
      chosen value is not an array. */
  function NormalizeResponse(d: Payload, kind: Kind, origin: Origin, currentYear: string): (r: seq<Prediction>)
    ensures ItemList(d).Some? ==> |r| == |ItemList(d).value|
    ensures ItemList(d).None? ==> r == []
    ensures ItemList(d).Some? ==> forall i | 0 <= i < |r| ::
      r[i] == NormalizeRecord(ItemList(d).value[i], kind, RecordAccess(ItemList(d).value[i], origin), currentYear)
  {
    match ItemList(d)
    case Some(xs) => NormalizeBatch(xs, kind, origin, currentYear)
    case None => []
  }

  /** Every record of a platform-wide batch is labelled `system`. */
  lemma SystemRecordsAreSystem(d: Payload, kind: Kind, currentYear: string)
    ensures forall q | q in NormalizeResponse(d, kind, SystemOrigin, currentYear) :: q.organizationAccess == Some(System)
  {
  }

  /** Every record of a scoped batch carries its backend label, else the label
      inferred from the role. */
  lemma UserRecordsTakeResolvedLabel(d: Payload, kind: Kind, role: Option<string>, currentYear: string, i: int)
    requires ItemList(d).Some? && 0 <= i < |ItemList(d).value|
    ensures NormalizeResponse(d, kind, UserOrigin(role), currentYear)[i].organizationAccess
            == Some(UserRecordAccess(ItemList(d).value[i], role))
  {
  }

  /** The four normalized datasets of a scoped-plus-platform fetch. */
  datatype Batches = Batches(
    userAnnual: seq<Prediction>,
    userQuarterly: seq<Prediction>,
    systemAnnual: seq<Prediction>,
    systemQuarterly: seq<Prediction>)

  /** `processAllPredictionsData` without its diagnostics: each response is
      normalized on its own; a non-array response yields `[]` for its dataset
      only, and the platform batches are labelled `system`. */
  function ProcessAll(userAnnual: Payload, userQuarterly: Payload, systemAnnual: Payload, systemQuarterly: Payload,
                      user: User, currentYear: string): (b: Batches)
    ensures ItemList(userAnnual).None? ==> b.userAnnual == []
    ensures ItemList(userQuarterly).None? ==> b.userQuarterly == []
    ensures ItemList(systemAnnual).None? ==> b.systemAnnual == []
    ensures ItemList(systemQuarterly).None? ==> b.systemQuarterly == []
    ensures ItemList(userAnnual).Some? ==> |b.userAnnual| == |ItemList(userAnnual).value|
    ensures ItemList(userQuarterly).Some? ==> |b.userQuarterly| == |ItemList(userQuarterly).value|
    ensures ItemList(systemAnnual).Some? ==> |b.systemAnnual| == |ItemList(systemAnnual).value|
    ensures ItemList(systemQuarterly).Some? ==> |b.systemQuarterly| == |ItemList(systemQuarterly).value|
    ensures ItemList(userAnnual).Some? ==> forall i | 0 <= i < |b.userAnnual| ::
      var raw := ItemList(userAnnual).value[i];
      b.userAnnual[i] == NormalizeRecord(raw, Annual, UserRecordAccess(raw, user.role), currentYear)
    ensures ItemList(userQuarterly).Some? ==> forall i | 0 <= i < |b.userQuarterly| ::
      var raw := ItemList(userQuarterly).value[i];
      b.userQuarterly[i] == NormalizeRecord(raw, Quarterly, UserRecordAccess(raw, user.role), currentYear)
    ensures ItemList(systemAnnual).Some? ==> forall i | 0 <= i < |b.systemAnnual| ::
      b.systemAnnual[i] == NormalizeRecord(ItemList(systemAnnual).value[i], Annual, System, currentYear)
    ensures ItemList(systemQuarterly).Some? ==> forall i | 0 <= i < |b.systemQuarterly| ::
      b.systemQuarterly[i] == NormalizeRecord(ItemList(systemQuarterly).value[i], Quarterly, System, currentYear)
    ensures forall q | q in b.systemAnnual + b.systemQuarterly :: q.organizationAccess == Some(System)
  {
    SystemRecordsAreSystem(systemAnnual, Annual, currentYear);
    SystemRecordsAreSystem(systemQuarterly, Quarterly, currentYear);
    Batches(NormalizeResponse(userAnnual, Annual, UserOrigin(user.role), currentYear),
            NormalizeResponse(userQuarterly, Quarterly, UserOrigin(user.role), currentYear),
            NormalizeResponse(systemAnnual, Annual, SystemOrigin, currentYear),
            NormalizeResponse(systemQuarterly, Quarterly, SystemOrigin, currentYear))
  }
}
