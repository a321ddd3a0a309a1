/** The store's state record as a value, and every operation of the store as a
    transition on it. The `Store` class performs these transitions in place. */
module Cache {
  import opened Values
  import opened Text
  import opened Entities
  import opened Scope
  import opened Paging
  import opened Normalizer

  datatype Snapshot = Snapshot(
    annualPredictions: seq<Prediction>,
    quarterlyPredictions: seq<Prediction>,
    systemAnnualPredictions: seq<Prediction>,
    systemQuarterlyPredictions: seq<Prediction>,
    isLoading: bool,
    error: Option<string>,
    lastFetched: Option<int>,
    isInitialized: bool,
    isFetching: bool,
    annualPagination: Pagination,
    quarterlyPagination: Pagination,
    systemAnnualPagination: Pagination,
    systemQuarterlyPagination: Pagination,
    activeDataFilter: string)

  const FreshnessWindowMs := 30 * 60 * 1000
  const NotAuthenticatedMessage := "User not authenticated"
  const FetchFailedMessage := "Failed to fetch predictions"

  /** The state of a new store, and of a store after `reset`. */
  function Initial(): (s: Snapshot)
    ensures AllConsistent(s)
    ensures s.annualPredictions == s.quarterlyPredictions == [] && s.systemAnnualPredictions == s.systemQuarterlyPredictions == []
    ensures !s.isFetching && !s.isInitialized && s.lastFetched.None? && s.error.None?
  {
    Snapshot([], [], [], [], false, None, None, false, false,
             InitialPagination(), InitialPagination(), InitialPagination(), InitialPagination(), Personal)
  }

  /** The four pagination records all keep `hasMore == (currentPage < totalPages)`. */
  predicate AllConsistent(s: Snapshot) {
    Consistent(s.annualPagination) && Consistent(s.quarterlyPagination) &&
    Consistent(s.systemAnnualPagination) && Consistent(s.systemQuarterlyPagination)
  }

  /** The cached data: the four datasets and their four pagination records. */
  predicate SameData(a: Snapshot, b: Snapshot) {
    a.annualPredictions == b.annualPredictions && a.quarterlyPredictions == b.quarterlyPredictions &&
    a.systemAnnualPredictions == b.systemAnnualPredictions && a.systemQuarterlyPredictions == b.systemQuarterlyPredictions &&
    a.annualPagination == b.annualPagination && a.quarterlyPagination == b.quarterlyPagination &&
    a.systemAnnualPagination == b.systemAnnualPagination && a.systemQuarterlyPagination == b.systemQuarterlyPagination
  }

  /** The cached data plus what the freshness policy and the view read. */
  predicate SameCache(a: Snapshot, b: Snapshot) {
    SameData(a, b) && a.lastFetched == b.lastFetched && a.isInitialized == b.isInitialized &&
    a.activeDataFilter == b.activeDataFilter
  }

  /** Cached data younger than the freshness window (a zero timestamp is falsy). */
  predicate IsFresh(s: Snapshot, now: int)
    ensures IsFresh(s, now) ==> s.isInitialized && s.lastFetched.Some? && now < s.lastFetched.value + FreshnessWindowMs
    ensures !s.isInitialized || s.lastFetched.None? || s.lastFetched == Some(0) ==> !IsFresh(s, now)
  {
    s.isInitialized && s.lastFetched.Some? && s.lastFetched.value != 0 &&
    now - s.lastFetched.value < FreshnessWindowMs
  }

  /** The four read endpoints. */
  datatype Endpoint = UserAnnualEndpoint | UserQuarterlyEndpoint | SystemAnnualEndpoint | SystemQuarterlyEndpoint

  /** One endpoint call with the page and size taken from the pagination record. */
  datatype Call = Call(endpoint: Endpoint, page: int, size: int)

  function CallFor(endpoint: Endpoint, p: Pagination): Call {
    Call(endpoint, p.currentPage, p.pageSize)
  }

  /** The calls a started fetch issues together. */
  datatype FetchPlan =
    | PlatformOnlyPlan(systemAnnual: Call, systemQuarterly: Call)
    | ScopedPlusPlatformPlan(annual: Call, quarterly: Call, systemAnnual: Call, systemQuarterly: Call)

  function Calls(plan: FetchPlan): (calls: seq<Call>)
    ensures |calls| == if plan.PlatformOnlyPlan? then 2 else 4
  {
    match plan
    case PlatformOnlyPlan(sa, sq) => [sa, sq]
    case ScopedPlusPlatformPlan(a, q, sa, sq) => [a, q, sa, sq]
  }

  /** The pagination record that supplies an endpoint's page and size. */
  function PaginationFor(s: Snapshot, endpoint: Endpoint): Pagination {
    match endpoint
    case UserAnnualEndpoint => s.annualPagination
    case UserQuarterlyEndpoint => s.quarterlyPagination
    case SystemAnnualEndpoint => s.systemAnnualPagination
    case SystemQuarterlyEndpoint => s.systemQuarterlyPagination
  }

  /** The plan for a user: two platform calls for `super_admin`, four calls
      otherwise; every call asks for the current page at the page size of its
      own dataset's pagination. */
  function PlanFor(s: Snapshot, user: User): (plan: FetchPlan)
    ensures plan.PlatformOnlyPlan? <==> StrategyFor(user) == PlatformOnly
    ensures plan.PlatformOnlyPlan? ==>
      plan.systemAnnual.endpoint == SystemAnnualEndpoint && plan.systemQuarterly.endpoint == SystemQuarterlyEndpoint
    ensures plan.ScopedPlusPlatformPlan? ==>
      plan.annual.endpoint == UserAnnualEndpoint && plan.quarterly.endpoint == UserQuarterlyEndpoint &&
      plan.systemAnnual.endpoint == SystemAnnualEndpoint && plan.systemQuarterly.endpoint == SystemQuarterlyEndpoint
    ensures forall c | c in Calls(plan) ::
      c.page == PaginationFor(s, c.endpoint).currentPage && c.size == PaginationFor(s, c.endpoint).pageSize
  {
    var sa := CallFor(SystemAnnualEndpoint, s.systemAnnualPagination);
    var sq := CallFor(SystemQuarterlyEndpoint, s.systemQuarterlyPagination);
    if StrategyFor(user) == PlatformOnly then PlatformOnlyPlan(sa, sq)
    else ScopedPlusPlatformPlan(CallFor(UserAnnualEndpoint, s.annualPagination),
                                CallFor(UserQuarterlyEndpoint, s.quarterlyPagination), sa, sq)
  }

  /** How a fetch request ends its synchronous part. */
  datatype FetchStart = Skipped | Unauthenticated | Started(plan: FetchPlan)

  datatype Step = Step(state: Snapshot, start: FetchStart)

  /** The entry of `fetchPredictions(forceRefresh)`, up to the calls: the guard
      against a fetch in flight and fresh data, the identity check, and the
      flags set before any call is issued. */
  function Begin(s: Snapshot, now: int, forceRefresh: bool, user: Option<User>): (r: Step)
    ensures r.start.Skipped? <==> s.isFetching || (!forceRefresh && IsFresh(s, now))
    ensures r.start.Skipped? ==> r.state == s
    ensures r.start.Unauthenticated? <==> !r.start.Skipped? && user.None?
    ensures r.start.Unauthenticated? ==>
      r.state == s.(isLoading := false, error := Some(NotAuthenticatedMessage), isFetching := false)
    ensures r.start.Started? ==>
      r.state == s.(isLoading := true, error := None, isFetching := true) &&
      |Calls(r.start.plan)| == (if user.value.role == Some("super_admin") then 2 else 4) &&
      r.start.plan == PlanFor(s, user.value)
    ensures SameCache(r.state, s)
  {
    if s.isFetching then Step(s, Skipped)
    else if !forceRefresh && IsFresh(s, now) then Step(s, Skipped)
    else if user.None? then
      Step(s.(isLoading := false, error := Some(NotAuthenticatedMessage), isFetching := false), Unauthenticated)
    else
      Step(s.(isLoading := true, error := None, isFetching := true), Started(PlanFor(s, user.value)))
  }

  /** The success commit of a platform-only fetch (`super_admin`). */
  function CommitPlatformOnly(s: Snapshot, plan: FetchPlan, now: int, currentYear: string,
                              systemAnnual: Payload, systemQuarterly: Payload): (r: Snapshot)
    requires plan.PlatformOnlyPlan?
    ensures r.annualPredictions == [] && r.quarterlyPredictions == []
    ensures r.systemAnnualPredictions == NormalizeResponse(systemAnnual, Annual, SystemOrigin, currentYear)
    ensures r.systemQuarterlyPredictions == NormalizeResponse(systemQuarterly, Quarterly, SystemOrigin, currentYear)
    ensures r.activeDataFilter == System
    ensures r.isInitialized && !r.isFetching && !r.isLoading && r.error.None? && r.lastFetched == Some(now)
    ensures r.systemAnnualPagination == AfterFetch(MetaPages(systemAnnual), MetaTotal(systemAnnual),
                                                   |r.systemAnnualPredictions|, plan.systemAnnual.size)
    ensures r.systemQuarterlyPagination == AfterFetch(MetaPages(systemQuarterly), MetaTotal(systemQuarterly),
                                                      |r.systemQuarterlyPredictions|, plan.systemQuarterly.size)
    ensures r.annualPagination == s.annualPagination && r.quarterlyPagination == s.quarterlyPagination
  {
    var sa := NormalizeResponse(systemAnnual, Annual, SystemOrigin, currentYear);
    var sq := NormalizeResponse(systemQuarterly, Quarterly, SystemOrigin, currentYear);
    s.(annualPredictions := [], quarterlyPredictions := [],
       systemAnnualPredictions := sa, systemQuarterlyPredictions := sq,
       isLoading := false, error := None, lastFetched := Some(now), isInitialized := true, isFetching := false,
       activeDataFilter := System,
       systemAnnualPagination := AfterFetch(MetaPages(systemAnnual), MetaTotal(systemAnnual), |sa|, plan.systemAnnual.size),
       systemQuarterlyPagination := AfterFetch(MetaPages(systemQuarterly), MetaTotal(systemQuarterly), |sq|, plan.systemQuarterly.size))
  }

  /** The success commit of a scoped-plus-platform fetch (every other role). */
  function CommitScopedPlusPlatform(s: Snapshot, plan: FetchPlan, now: int, currentYear: string, user: User,
                                    userAnnual: Payload, userQuarterly: Payload,
                                    systemAnnual: Payload, systemQuarterly: Payload): (r: Snapshot)
    requires plan.ScopedPlusPlatformPlan?
    ensures var b := ProcessAll(userAnnual, userQuarterly, systemAnnual, systemQuarterly, user, currentYear);
      r.annualPredictions == b.userAnnual && r.quarterlyPredictions == b.userQuarterly &&
      r.systemAnnualPredictions == b.systemAnnual && r.systemQuarterlyPredictions == b.systemQuarterly
    ensures r.activeDataFilter == DefaultFilterForUser(Some(user))
    ensures r.isInitialized && !r.isFetching && !r.isLoading && r.error.None? && r.lastFetched == Some(now)
    ensures AllConsistent(r)
    ensures r.annualPagination == AfterFetch(MetaPages(userAnnual), MetaTotal(userAnnual),
                                             |r.annualPredictions|, plan.annual.size)
    ensures r.quarterlyPagination == AfterFetch(MetaPages(userQuarterly), MetaTotal(userQuarterly),
                                                |r.quarterlyPredictions|, plan.quarterly.size)
    ensures r.systemAnnualPagination == AfterFetch(MetaPages(systemAnnual), MetaTotal(systemAnnual),
                                                   |r.systemAnnualPredictions|, plan.systemAnnual.size)
    ensures r.systemQuarterlyPagination == AfterFetch(MetaPages(systemQuarterly), MetaTotal(systemQuarterly),
                                                      |r.systemQuarterlyPredictions|, plan.systemQuarterly.size)
  {
    var b := ProcessAll(userAnnual, userQuarterly, systemAnnual, systemQuarterly, user, currentYear);
    s.(annualPredictions := b.userAnnual, quarterlyPredictions := b.userQuarterly,
       systemAnnualPredictions := b.systemAnnual, systemQuarterlyPredictions := b.systemQuarterly,
       isLoading := false, error := None, lastFetched := Some(now), isInitialized := true, isFetching := false,
       activeDataFilter := DefaultFilterForUser(Some(user)),
       annualPagination := AfterFetch(MetaPages(userAnnual), MetaTotal(userAnnual), |b.userAnnual|, plan.annual.size),
       quarterlyPagination := AfterFetch(MetaPages(userQuarterly), MetaTotal(userQuarterly), |b.userQuarterly|, plan.quarterly.size),
       systemAnnualPagination := AfterFetch(MetaPages(systemAnnual), MetaTotal(systemAnnual), |b.systemAnnual|, plan.systemAnnual.size),
       systemQuarterlyPagination := AfterFetch(MetaPages(systemQuarterly), MetaTotal(systemQuarterly), |b.systemQuarterly|, plan.systemQuarterly.size))
  }

  /** `status === 401` or a message containing "unauthorized". */
  predicate IsAuthError(e: FetchError)
    ensures IsAuthError(e) <==>
      e.status == Some(401) || (e.message.Some? && exists k :: OccursAt(e.message.value, "unauthorized", k))
  {
    e.status == Some(401) ||
    (e.message.Some? && (IncludesIffOccurs(e.message.value, "unauthorized"); Includes(e.message.value, "unauthorized")))
  }

  /** The message an ordinary failure records: `message || 'Failed to fetch predictions'`. */
  function FailureMessage(e: FetchError): (m: string)
    ensures m != ""
    ensures Filled(e.message) ==> m == e.message.value
  {
    if Filled(e.message) then e.message.value else FetchFailedMessage
  }

  /** The `catch` of `fetchPredictions`: the in-flight and loading flags are
      released; an authentication failure clears the error, any other failure
      records its message; nothing cached changes. */
  function Fail(s: Snapshot, e: FetchError): (r: Snapshot)
    ensures SameCache(r, s)
    ensures !r.isFetching && !r.isLoading
    ensures r.error.None? <==> IsAuthError(e)
    ensures !IsAuthError(e) ==> r.error == Some(FailureMessage(e))
    ensures r.(isFetching := s.isFetching, isLoading := s.isLoading, error := s.error) == s
  {
    s.(isLoading := false, error := if IsAuthError(e) then None else Some(FailureMessage(e)), isFetching := false)
  }

  /** The dataset of one kind on one side (platform-wide or scoped). */
  function Dataset(s: Snapshot, system: bool, kind: Kind): seq<Prediction> {
    match (system, kind)
    case (true, Annual) => s.systemAnnualPredictions
    case (true, Quarterly) => s.systemQuarterlyPredictions
    case (false, Annual) => s.annualPredictions
    case (false, Quarterly) => s.quarterlyPredictions
  }

  /** `s` with one dataset replaced and everything else kept. */
  function WithDataset(s: Snapshot, system: bool, kind: Kind, d: seq<Prediction>): (r: Snapshot)
    ensures Dataset(r, system, kind) == d
    ensures forall sys: bool, k: Kind | (sys, k) != (system, kind) :: Dataset(r, sys, k) == Dataset(s, sys, k)
    ensures r.(annualPredictions := s.annualPredictions, quarterlyPredictions := s.quarterlyPredictions,
               systemAnnualPredictions := s.systemAnnualPredictions,
               systemQuarterlyPredictions := s.systemQuarterlyPredictions) == s
  {
    match (system, kind)
    case (true, Annual) => s.(systemAnnualPredictions := d)
    case (true, Quarterly) => s.(systemQuarterlyPredictions := d)
    case (false, Annual) => s.(annualPredictions := d)
    case (false, Quarterly) => s.(quarterlyPredictions := d)
  }

  /** A record whose scope tag is `system` belongs to the platform-wide datasets. */
  predicate IsSystemRecord(p: Prediction) {
    p.organizationAccess == Some(System)
  }

  /** `addPrediction`: put the record at the front of the dataset its scope and kind select. */
  function AddLocal(s: Snapshot, p: Prediction, kind: Kind): (r: Snapshot)
    ensures Dataset(r, IsSystemRecord(p), kind) == [p] + Dataset(s, IsSystemRecord(p), kind)
    ensures forall sys: bool, k: Kind | (sys, k) != (IsSystemRecord(p), kind) :: Dataset(r, sys, k) == Dataset(s, sys, k)
    ensures r.(annualPredictions := s.annualPredictions, quarterlyPredictions := s.quarterlyPredictions,
               systemAnnualPredictions := s.systemAnnualPredictions,
               systemQuarterlyPredictions := s.systemQuarterlyPredictions) == s
  {
    WithDataset(s, IsSystemRecord(p), kind, [p] + Dataset(s, IsSystemRecord(p), kind))
  }

  /** `xs.map(x => x.id === tempId ? p : x)` */
  function ReplaceById(xs: seq<Prediction>, tempId: string, p: Prediction): (ys: seq<Prediction>)
    ensures |ys| == |xs|
    ensures forall i | 0 <= i < |xs| :: xs[i].id == tempId ==> ys[i] == p
    ensures forall i | 0 <= i < |xs| :: xs[i].id != tempId ==> ys[i] == xs[i]
  {
    if xs == [] then []
    else [if xs[0].id == tempId then p else xs[0]] + ReplaceById(xs[1..], tempId, p)
  }

  /** Without an entry carrying `tempId`, the replacement changes nothing. */
  lemma {:induction false} ReplaceByIdNoMatch(xs: seq<Prediction>, tempId: string, p: Prediction)
    requires forall x | x in xs :: x.id != tempId
    ensures ReplaceById(xs, tempId, p) == xs
  {
    if xs != [] {
      ReplaceByIdNoMatch(xs[1..], tempId, p);
    }
  }

  /** After the replacement no entry keeps `tempId` unless the new record carries it. */
  lemma ReplaceByIdRemovesPlaceholder(xs: seq<Prediction>, tempId: string, p: Prediction)
    requires p.id != tempId
    ensures forall y | y in ReplaceById(xs, tempId, p) :: y.id != tempId
  {
    var ys := ReplaceById(xs, tempId, p);
    forall y | y in ys ensures y.id != tempId {
      var i :| 0 <= i < |ys| && ys[i] == y;
    }
  }

  /** `replacePrediction`: replace every entry carrying `tempId` in the dataset
      the new record's scope and kind select. */
  function ReplaceLocal(s: Snapshot, p: Prediction, kind: Kind, tempId: string): (r: Snapshot)
    ensures Dataset(r, IsSystemRecord(p), kind) == ReplaceById(Dataset(s, IsSystemRecord(p), kind), tempId, p)
    ensures forall sys: bool, k: Kind | (sys, k) != (IsSystemRecord(p), kind) :: Dataset(r, sys, k) == Dataset(s, sys, k)
    ensures r.(annualPredictions := s.annualPredictions, quarterlyPredictions := s.quarterlyPredictions,
               systemAnnualPredictions := s.systemAnnualPredictions,
               systemQuarterlyPredictions := s.systemQuarterlyPredictions) == s
  {
    WithDataset(s, IsSystemRecord(p), kind, ReplaceById(Dataset(s, IsSystemRecord(p), kind), tempId, p))
  }

  /** `xs.filter(x => x.id !== id)` */
  function RemoveById(xs: seq<Prediction>, id: string): (ys: seq<Prediction>)
    ensures |ys| <= |xs|
    ensures forall y | y in ys :: y in xs && y.id != id
    ensures forall x | x in xs && x.id != id :: x in ys
  {
    if xs == [] then []
    else if xs[0].id == id then RemoveById(xs[1..], id)
    else [xs[0]] + RemoveById(xs[1..], id)
  }

  /** The filter keeps the surviving entries in their order: it distributes
      over concatenation. */
  lemma {:induction false} RemoveByIdConcat(xs: seq<Prediction>, ys: seq<Prediction>, id: string)
    ensures RemoveById(xs + ys, id) == RemoveById(xs, id) + RemoveById(ys, id)
  {
    if xs == [] {
      assert xs + ys == ys;
    } else {
      assert (xs + ys)[0] == xs[0] && (xs + ys)[1..] == xs[1..] + ys;
      RemoveByIdConcat(xs[1..], ys, id);
    }
  }

  /** Removing an id twice is removing it once. */
  lemma {:induction false} RemoveByIdIdempotent(xs: seq<Prediction>, id: string)
    ensures RemoveById(RemoveById(xs, id), id) == RemoveById(xs, id)
  {
    if xs != [] {
      RemoveByIdIdempotent(xs[1..], id);
    }
  }

  /** `removePrediction`: drop the id from both datasets of the kind. */
  function RemoveLocal(s: Snapshot, id: string, kind: Kind): (r: Snapshot)
    ensures forall sys: bool, x | x in Dataset(r, sys, kind) :: x.id != id
    ensures forall sys: bool :: Dataset(r, sys, kind) == RemoveById(Dataset(s, sys, kind), id)
    ensures forall sys: bool, k: Kind | k != kind :: Dataset(r, sys, k) == Dataset(s, sys, k)
    ensures r.(annualPredictions := s.annualPredictions, quarterlyPredictions := s.quarterlyPredictions,
               systemAnnualPredictions := s.systemAnnualPredictions,
               systemQuarterlyPredictions := s.systemQuarterlyPredictions) == s
  {
    var s1 := WithDataset(s, false, kind, RemoveById(Dataset(s, false, kind), id));
    WithDataset(s1, true, kind, RemoveById(Dataset(s, true, kind), id))
  }

  /** Removing twice is removing once. */
  lemma RemoveLocalIdempotent(s: Snapshot, id: string, kind: Kind)
    ensures RemoveLocal(RemoveLocal(s, id, kind), id, kind) == RemoveLocal(s, id, kind)
  {
    var r := RemoveLocal(s, id, kind);
    var r2 := RemoveLocal(r, id, kind);
    RemoveByIdIdempotent(Dataset(s, false, kind), id);
    RemoveByIdIdempotent(Dataset(s, true, kind), id);
    assert forall sys: bool, k: Kind :: Dataset(r2, sys, k) == Dataset(r, sys, k);
    assert Dataset(r2, false, Annual) == Dataset(r, false, Annual);
    assert Dataset(r2, false, Quarterly) == Dataset(r, false, Quarterly);
    assert Dataset(r2, true, Annual) == Dataset(r, true, Annual);
    assert Dataset(r2, true, Quarterly) == Dataset(r, true, Quarterly);
  }

  /** `getFilteredPredictions(type)`: the platform dataset under the `system`
      filter, the scoped dataset under any other. */
  function Visible(s: Snapshot, kind: Kind): (v: seq<Prediction>)
    ensures s.activeDataFilter == System ==> v == Dataset(s, true, kind)
    ensures s.activeDataFilter != System ==> v == Dataset(s, false, kind)
  {
    if s.activeDataFilter == System then
      (if kind == Annual then s.systemAnnualPredictions else s.systemQuarterlyPredictions)
    else
      (if kind == Annual then s.annualPredictions else s.quarterlyPredictions)
  }

  /** `setDataFilter` */
  function SetFilter(s: Snapshot, filter: string): (r: Snapshot)
    ensures r.activeDataFilter == filter
    ensures r.(activeDataFilter := s.activeDataFilter) == s
  {
    s.(activeDataFilter := filter)
  }

  /** `invalidateCache`: forget the timestamp and the initialized flag, keep the data. */
  function Invalidate(s: Snapshot): (r: Snapshot)
    ensures r.lastFetched.None? && !r.isInitialized
    ensures r.(lastFetched := s.lastFetched, isInitialized := s.isInitialized) == s
  {
    s.(lastFetched := None, isInitialized := false)
  }

  /** `clearError` */
  function ClearError(s: Snapshot): (r: Snapshot)
    ensures r.error.None?
    ensures r.(error := s.error) == s
  {
    s.(error := None)
  }
}
