/** The records the prediction store holds and the shapes it receives. */
module Entities {
  import opened Values

  /** The two dataset families: `'annual' | 'quarterly'`. */
  datatype Kind = Annual | Quarterly

  /** The derived `financial_ratios` sub-object; annual and quarterly records
      assemble different subsets of the ratio fields. */
  datatype Ratios =
    | AnnualRatios(ltdtc: Num, roa: Num, ebitint: Num)
    | QuarterlyRatios(ltdtc: Num, sga: Num, roa: Num, tdte: Num)

  /** A prediction record, raw from the backend or normalized. Every field the
      normalizer does not set is carried over from the raw record unchanged. */
  datatype Prediction = Prediction(
    id: string,
    companyId: string,
    companySymbol: string,
    companyName: string,
    reportingYear: Option<string>,
    reportingQuarter: Option<string>,
    longTermDebtToTotalCapital: Num,
    totalDebtToEbitda: Num,
    netIncomeMargin: Num,
    ebitToInterestExpense: Num,
    returnOnAssets: Num,
    sgaMargin: Num,
    returnOnCapital: Num,
    probability: Num,
    logisticProbability: Num,
    gbmProbability: Num,
    ensembleProbability: Num,
    defaultProbability: Num,
    riskLevel: Option<string>,
    riskCategory: Option<string>,
    confidence: Num,
    organizationId: Option<string>,
    organizationName: Option<string>,
    accessLevel: Option<string>,
    organizationAccess: Option<string>,
    financialRatios: Option<Ratios>,
    createdBy: string,
    createdByEmail: Option<string>,
    createdAt: string,
    updatedAt: Option<string>)

  /** The authenticated user as the store reads it; only the role matters. */
  datatype User = User(id: string, role: Option<string>)

  /** A property of a response body: falsy (absent, null, 0, "" or false),
      an array of records, or some other truthy value. */
  datatype Field = Unset | ListValue(records: seq<Prediction>) | OtherValue

  /** The `data` of one endpoint response. */
  datatype Payload =
    | NoData                                  // response or its data is falsy
    | ArrayData(records: seq<Prediction>)     // data is itself an array
    | ObjectData(items: Field, predictions: Field, pages: Option<int>, total: Option<int>)
    | ScalarData                              // a truthy non-object, e.g. a string

  /** A rejected endpoint call: `error.response.status` and `error.message`. */
  datatype FetchError = FetchError(status: Option<int>, message: Option<string>)
}
