/** The prediction store: one object whose fields are the state record, updated
    in place by its actions. Each action is proved to perform the matching
    transition of `Cache`, and each keeps the pagination invariant. */
module Store {
  import opened Values
  import opened Entities
  import opened Scope
  import opened Paging
  import opened Cache
  import opened CacheProperties

  class PredictionsStore {
    var annualPredictions: seq<Prediction>
    var quarterlyPredictions: seq<Prediction>
    var systemAnnualPredictions: seq<Prediction>
    var systemQuarterlyPredictions: seq<Prediction>
    var isLoading: bool
    var error: Option<string>
    var lastFetched: Option<int>
    var isInitialized: bool
    var isFetching: bool
    var annualPagination: Pagination
    var quarterlyPagination: Pagination
    var systemAnnualPagination: Pagination
    var systemQuarterlyPagination: Pagination
    var activeDataFilter: string

    /** The fields as one state record. */
    function State(): Snapshot
      reads this
    {
      Snapshot(annualPredictions, quarterlyPredictions, systemAnnualPredictions, systemQuarterlyPredictions,
               isLoading, error, lastFetched, isInitialized, isFetching,
               annualPagination, quarterlyPagination, systemAnnualPagination, systemQuarterlyPagination,
               activeDataFilter)
    }

    /** The store's invariant: every pagination record is consistent. */
    predicate Valid()
      reads this
    {
      AllConsistent(State())
    }

    constructor ()
      ensures State() == Initial() && Valid()
    {
      annualPredictions, quarterlyPredictions := [], [];
      systemAnnualPredictions, systemQuarterlyPredictions := [], [];
      isLoading, error, lastFetched, isInitialized, isFetching := false, None, None, false, false;
      activeDataFilter := Personal;
      annualPagination, quarterlyPagination := InitialPagination(), InitialPagination();
      systemAnnualPagination, systemQuarterlyPagination := InitialPagination(), InitialPagination();
    }

    /** `fetchPredictions(forceRefresh)` up to the endpoint calls; `start` says
        whether and which calls are issued. */
    method BeginFetch(now: int, forceRefresh: bool, user: Option<User>) returns (start: FetchStart)
      requires Valid()
      modifies this
      ensures Valid()
      ensures State() == Begin(old(State()), now, forceRefresh, user).state
      ensures start == Begin(old(State()), now, forceRefresh, user).start
    {
      if isFetching {
        return Skipped;
      }
      if !forceRefresh && isInitialized && lastFetched.Some? && lastFetched.value != 0
         && now - lastFetched.value < FreshnessWindowMs {
        return Skipped;
      }
      if user.None? {
        isLoading, error, isFetching := false, Some(NotAuthenticatedMessage), false;
        return Unauthenticated;
      }
      var plan := PlanFor(State(), user.value);
      isLoading, error, isFetching := true, None, true;
      start := Started(plan);
    }

    /** `refetchPredictions`: a forced fetch. */
    method Refetch(now: int, user: Option<User>) returns (start: FetchStart)
      requires Valid()
      modifies this
      ensures Valid()
      ensures State() == Begin(old(State()), now, true, user).state
      ensures start == Begin(old(State()), now, true, user).start
    {
      start := BeginFetch(now, true, user);
    }

    /** One `set` of a whole state record: every field takes the record's value. */
    method Assign(next: Snapshot)
      modifies this
      ensures State() == next
    {
      annualPredictions, quarterlyPredictions := next.annualPredictions, next.quarterlyPredictions;
      systemAnnualPredictions, systemQuarterlyPredictions := next.systemAnnualPredictions, next.systemQuarterlyPredictions;
      isLoading, error, lastFetched := next.isLoading, next.error, next.lastFetched;
      isInitialized, isFetching := next.isInitialized, next.isFetching;
      annualPagination, quarterlyPagination := next.annualPagination, next.quarterlyPagination;
      systemAnnualPagination, systemQuarterlyPagination := next.systemAnnualPagination, next.systemQuarterlyPagination;
      activeDataFilter := next.activeDataFilter;
    }

    /** The success commit of the `super_admin` branch, once both platform
        responses have settled. */
    method CommitPlatformOnly(plan: FetchPlan, now: int, currentYear: string,
                              systemAnnual: Payload, systemQuarterly: Payload)
      requires Valid() && plan.PlatformOnlyPlan?
      modifies this
      ensures Valid()
      ensures State() == Cache.CommitPlatformOnly(old(State()), plan, now, currentYear, systemAnnual, systemQuarterly)
    {
      var next := Cache.CommitPlatformOnly(State(), plan, now, currentYear, systemAnnual, systemQuarterly);
      PlatformOnlyCommitPreservesConsistency(State(), plan, now, currentYear, systemAnnual, systemQuarterly);
      Assign(next);
    }

    /** The success commit of the other roles' branch, once all four responses
        have settled. */
    method CommitScopedPlusPlatform(plan: FetchPlan, now: int, currentYear: string, user: User,
                                    userAnnual: Payload, userQuarterly: Payload,
                                    systemAnnual: Payload, systemQuarterly: Payload)
      requires Valid() && plan.ScopedPlusPlatformPlan?
      modifies this
      ensures Valid()
      ensures State() == Cache.CommitScopedPlusPlatform(old(State()), plan, now, currentYear, user,
                                                         userAnnual, userQuarterly, systemAnnual, systemQuarterly)
    {
      var next := Cache.CommitScopedPlusPlatform(State(), plan, now, currentYear, user,
                                                 userAnnual, userQuarterly, systemAnnual, systemQuarterly);
      Assign(next);
    }

    /** The `catch` of `fetchPredictions`, once a call has rejected. */
    method Fail(e: FetchError)
      requires Valid()
      modifies this
      ensures Valid()
      ensures State() == Cache.Fail(old(State()), e)
    {
      if IsAuthError(e) {
        isLoading, error, isFetching := false, None, false;
      } else {
        isLoading, error, isFetching := false, Some(FailureMessage(e)), false;
      }
    }

    /** `getFilteredPredictions(type)` */
    method GetFilteredPredictions(kind: Kind) returns (v: seq<Prediction>)
      ensures v == Visible(State(), kind)
      ensures activeDataFilter == System ==> v == Dataset(State(), true, kind)
      ensures activeDataFilter != System ==> v == Dataset(State(), false, kind)
    {
      if activeDataFilter == System {
        v := if kind == Annual then systemAnnualPredictions else systemQuarterlyPredictions;
      } else {
        v := if kind == Annual then annualPredictions else quarterlyPredictions;
      }
    }

    /** `setDataFilter(filter)` */
    method SetDataFilter(filter: string)
      requires Valid()
      modifies this
      ensures Valid()
      ensures State() == SetFilter(old(State()), filter)
    {
      activeDataFilter := filter;
    }

    /** `addPrediction(prediction, type)` */
    method AddPrediction(prediction: Prediction, kind: Kind)
      requires Valid()
      modifies this
      ensures Valid()
      ensures State() == AddLocal(old(State()), prediction, kind)
    {
      if prediction.organizationAccess == Some(System) {
        if kind == Annual {
          systemAnnualPredictions := [prediction] + systemAnnualPredictions;
        } else {
          systemQuarterlyPredictions := [prediction] + systemQuarterlyPredictions;
        }
      } else {
        if kind == Annual {
          annualPredictions := [prediction] + annualPredictions;
        } else {
          quarterlyPredictions := [prediction] + quarterlyPredictions;
        }
      }
    }

    /** `replacePrediction(prediction, type, tempId)` */
    method ReplacePrediction(prediction: Prediction, kind: Kind, tempId: string)
      requires Valid()
      modifies this
      ensures Valid()
      ensures State() == ReplaceLocal(old(State()), prediction, kind, tempId)
    {
      if prediction.organizationAccess == Some(System) {
        if kind == Annual {
          systemAnnualPredictions := ReplaceById(systemAnnualPredictions, tempId, prediction);
        } else {
          systemQuarterlyPredictions := ReplaceById(systemQuarterlyPredictions, tempId, prediction);
        }
      } else {
        if kind == Annual {
          annualPredictions := ReplaceById(annualPredictions, tempId, prediction);
        } else {
          quarterlyPredictions := ReplaceById(quarterlyPredictions, tempId, prediction);
        }
      }
    }

    /** `removePrediction(predictionId, type)` */
    method RemovePrediction(predictionId: string, kind: Kind)
      requires Valid()
      modifies this
      ensures Valid()
      ensures State() == RemoveLocal(old(State()), predictionId, kind)
    {
      if kind == Annual {
        annualPredictions := RemoveById(annualPredictions, predictionId);
        systemAnnualPredictions := RemoveById(systemAnnualPredictions, predictionId);
      } else {
        quarterlyPredictions := RemoveById(quarterlyPredictions, predictionId);
        systemQuarterlyPredictions := RemoveById(systemQuarterlyPredictions, predictionId);
      }
    }

    /** `invalidateCache` */
    method InvalidateCache()
      requires Valid()
      modifies this
      ensures Valid()
      ensures State() == Invalidate(old(State()))
    {
      lastFetched, isInitialized := None, false;
    }

    /** `clearError` */
    method ClearError()
      requires Valid()
      modifies this
      ensures Valid()
      ensures State() == Cache.ClearError(old(State()))
    {
      error := None;
    }

    /** `reset`, also run on the logout event: back to the initial state. */
    method Reset()
      modifies this
      ensures Valid()
      ensures State() == Initial()
    {
      annualPredictions, quarterlyPredictions := [], [];
      systemAnnualPredictions, systemQuarterlyPredictions := [], [];
      isLoading, error, lastFetched, isInitialized, isFetching := false, None, None, false, false;
      activeDataFilter := Personal;
      annualPagination, quarterlyPagination := InitialPagination(), InitialPagination();
      systemAnnualPagination, systemQuarterlyPagination := InitialPagination(), InitialPagination();
    }
  }
}
