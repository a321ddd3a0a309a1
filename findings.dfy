/** The regular-role commit as written. Before any `Array.isArray` guard, the
    diagnostics of `processAllPredictionsData` evaluate `slice(0, 2).map(...)`
    on the raw user-annual and platform-annual item values. A value that is not
    an array has no such `map`, so the call throws, and the `catch` of
    `fetchPredictions` treats it as an ordinary failure: nothing is committed.
    The rest of the model uses `Normalizer.ProcessAll`, where such a response
    yields `[]` for its own dataset, as the guard intends. */
module Findings {
  import opened Values
  import opened Text
  import opened Entities
  import opened Normalizer
  import opened Cache

  datatype Outcome = Processed(batches: Batches) | Threw

  /** `processAllPredictionsData` with its diagnostics evaluated. */
  function ProcessAllAsWritten(userAnnual: Payload, userQuarterly: Payload, systemAnnual: Payload,
                               systemQuarterly: Payload, user: User, currentYear: string): (o: Outcome)
    ensures o.Threw? <==> ItemList(userAnnual).None? || ItemList(systemAnnual).None?
    ensures o.Processed? ==> o.batches == ProcessAll(userAnnual, userQuarterly, systemAnnual, systemQuarterly, user, currentYear)
  {
    if ItemList(userAnnual).None? || ItemList(systemAnnual).None? then Threw
    else Processed(ProcessAll(userAnnual, userQuarterly, systemAnnual, systemQuarterly, user, currentYear))
  }

  /** The `TypeError` the diagnostics raise: no HTTP status, and a message
      naming the value without `slice`. It is never an authentication error. */
  function DiagnosticsError(userAnnual: Payload): (e: FetchError)
    ensures e.status.None? && e.message.Some?
    ensures !IsAuthError(e)
  {
    var message := if ItemList(userAnnual).None? then "userAnnualData.slice is not a function"
                   else "systemAnnualData.slice is not a function";
    assert 'z' !in message;
    NoMarkerLetterNoAuth(message);
    FetchError(None, Some(message))
  }

  /** A status-less error whose message lacks the letter `z` of "unauthorized"
      is not an authentication error. */
  lemma NoMarkerLetterNoAuth(message: string)
    requires 'z' !in message
    ensures !IsAuthError(FetchError(None, Some(message)))
  {
    IncludedCharsOccur(message, "unauthorized", 9);
  }

  /** The regular-role branch as written: the thrown error reaches the `catch`,
      which records it as an ordinary failure and keeps the old cache. */
  function CommitScopedPlusPlatformAsWritten(s: Snapshot, plan: FetchPlan, now: int, currentYear: string, user: User,
                                             userAnnual: Payload, userQuarterly: Payload,
                                             systemAnnual: Payload, systemQuarterly: Payload): (r: Snapshot)
    requires plan.ScopedPlusPlatformPlan?
    ensures ItemList(userAnnual).Some? && ItemList(systemAnnual).Some? ==>
      r == CommitScopedPlusPlatform(s, plan, now, currentYear, user, userAnnual, userQuarterly, systemAnnual, systemQuarterly)
    ensures ItemList(userAnnual).None? || ItemList(systemAnnual).None? ==>
      r == Fail(s, DiagnosticsError(userAnnual)) && SameCache(r, s) &&
      r.error == Some(DiagnosticsError(userAnnual).message.value)
  {
    match ProcessAllAsWritten(userAnnual, userQuarterly, systemAnnual, systemQuarterly, user, currentYear)
    case Threw => Fail(s, DiagnosticsError(userAnnual))
    case Processed(_) =>
      CommitScopedPlusPlatform(s, plan, now, currentYear, user, userAnnual, userQuarterly, systemAnnual, systemQuarterly)
  }

  /** A user-annual body that is an object without `items` or `predictions`
      (here `{pages: 1}`): as written the fetch ends as a failure that keeps the
      old cache and records the error; the guard's intent is an empty dataset
      and a commit of the other three. */
  lemma ObjectBodyAbortsRegularFetch(s: Snapshot, plan: FetchPlan, now: int, currentYear: string, user: User,
                                     uq: Payload, sa: Payload, sq: Payload)
    requires plan.ScopedPlusPlatformPlan? && ItemList(sa).Some?
    ensures var ua := ObjectData(Unset, Unset, Some(1), None);
      var asWritten := CommitScopedPlusPlatformAsWritten(s, plan, now, currentYear, user, ua, uq, sa, sq);
      var intended := CommitScopedPlusPlatform(s, plan, now, currentYear, user, ua, uq, sa, sq);
      SameCache(asWritten, s) && asWritten.error.Some? &&
      intended.annualPredictions == [] && intended.isInitialized && intended.error.None? &&
      intended.systemAnnualPredictions == NormalizeResponse(sa, Annual, SystemOrigin, currentYear)
  {
  }

  /** The platform-only branch has no such diagnostics: the same body there
      yields an empty dataset and the commit goes through. */
  lemma PlatformOnlyToleratesObjectBody(s: Snapshot, plan: FetchPlan, now: int, currentYear: string, sq: Payload)
    requires plan.PlatformOnlyPlan?
    ensures var r := CommitPlatformOnly(s, plan, now, currentYear, ObjectData(Unset, Unset, Some(1), None), sq);
      r.systemAnnualPredictions == [] && r.isInitialized && r.error.None?
  {
  }
}
