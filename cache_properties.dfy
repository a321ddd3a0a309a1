/** Properties that relate several transitions of the store: the fetch guard,
    the freshness window, the role-specific commits, failure handling, the
    local mutations as the view sees them, and the pagination invariant. */
module CacheProperties {
  import opened Values
  import opened Entities
  import opened Scope
  import opened Normalizer
  import opened Cache

  /** A second request while a fetch is in flight is dropped, forced or not,
      and changes nothing. */
  lemma SecondFetchWhileInFlightIsDropped(s: Snapshot, now: int, force: bool, user: Option<User>,
                                          now2: int, force2: bool, user2: Option<User>)
    requires Begin(s, now, force, user).start.Started?
    ensures var s1 := Begin(s, now, force, user).state;
      Begin(s1, now2, force2, user2) == Step(s1, Skipped)
  {
  }

  /** Without a user the fetch records the error, releases the flag and issues
      no call; the cached data stays. */
  lemma MissingUserIssuesNoCall(s: Snapshot, now: int, force: bool)
    requires !s.isFetching && (force || !IsFresh(s, now))
    ensures var r := Begin(s, now, force, None);
      r.start == Unauthenticated && r.state.error == Some(NotAuthenticatedMessage) &&
      !r.state.isFetching && SameData(r.state, s)
  {
  }

  /** Once a fetch has committed at a non-zero time `t0`, a non-forced request
      is dropped exactly while less than thirty minutes have passed. */
  lemma FreshnessWindow(r: Snapshot, t0: int, now: int, user: User)
    requires r.isInitialized && !r.isFetching && r.lastFetched == Some(t0) && t0 != 0
    ensures Begin(r, now, false, Some(user)).start.Skipped? <==> now - t0 < FreshnessWindowMs
  {
  }

  /** The window after the commit of a fetch for any role but `super_admin`. */
  lemma FreshnessWindowAfterCommit(s: Snapshot, plan: FetchPlan, t0: int, currentYear: string, user: User,
                                   ua: Payload, uq: Payload, sa: Payload, sq: Payload, now: int)
    requires plan.ScopedPlusPlatformPlan? && t0 != 0
    ensures var r := CommitScopedPlusPlatform(s, plan, t0, currentYear, user, ua, uq, sa, sq);
      Begin(r, now, false, Some(user)).start.Skipped? <==> now - t0 < FreshnessWindowMs
  {
    FreshnessWindow(CommitScopedPlusPlatform(s, plan, t0, currentYear, user, ua, uq, sa, sq), t0, now, user);
  }

  /** The window after the commit of a `super_admin` fetch. */
  lemma FreshnessWindowAfterPlatformCommit(s: Snapshot, plan: FetchPlan, t0: int, currentYear: string, user: User,
                                           sa: Payload, sq: Payload, now: int)
    requires plan.PlatformOnlyPlan? && t0 != 0
    ensures var r := CommitPlatformOnly(s, plan, t0, currentYear, sa, sq);
      Begin(r, now, false, Some(user)).start.Skipped? <==> now - t0 < FreshnessWindowMs
  {
    FreshnessWindow(CommitPlatformOnly(s, plan, t0, currentYear, sa, sq), t0, now, user);
  }

  /** The concrete window: 29 minutes after a fetch no call is issued, 31
      minutes after one is. */
  lemma FreshnessWindowExample(s: Snapshot, plan: FetchPlan, t0: int, currentYear: string, user: User,
                               ua: Payload, uq: Payload, sa: Payload, sq: Payload)
    requires plan.ScopedPlusPlatformPlan? && t0 > 0
    ensures var r := CommitScopedPlusPlatform(s, plan, t0, currentYear, user, ua, uq, sa, sq);
      Begin(r, t0 + 29 * 60 * 1000, false, Some(user)).start.Skipped? &&
      Begin(r, t0 + 31 * 60 * 1000, false, Some(user)).start.Started?
  {
    FreshnessWindowAfterCommit(s, plan, t0, currentYear, user, ua, uq, sa, sq, t0 + 29 * 60 * 1000);
    FreshnessWindowAfterCommit(s, plan, t0, currentYear, user, ua, uq, sa, sq, t0 + 31 * 60 * 1000);
  }

  /** After `invalidateCache` the next non-forced request passes the guard,
      while every record stays on display. */
  lemma InvalidatePassesGuard(s: Snapshot, now: int, user: User)
    requires !s.isFetching
    ensures Begin(Invalidate(s), now, false, Some(user)).start.Started?
    ensures SameData(Invalidate(s), s) && Visible(Invalidate(s), Annual) == Visible(s, Annual)
    ensures Visible(Invalidate(s), Quarterly) == Visible(s, Quarterly)
  {
  }

  /** A `super_admin` fetch issues the two platform calls; its commit leaves the
      scoped datasets empty and shows exactly the platform datasets, every
      record labelled `system`. */
  lemma SuperAdminFetch(s: Snapshot, now: int, force: bool, user: User, t: int, currentYear: string,
                        sa: Payload, sq: Payload, kind: Kind)
    requires user.role == Some("super_admin")
    requires Begin(s, now, force, Some(user)).start.Started?
    ensures var plan := Begin(s, now, force, Some(user)).start.plan;
      plan.PlatformOnlyPlan? && |Calls(plan)| == 2 &&
      var r := CommitPlatformOnly(Begin(s, now, force, Some(user)).state, plan, t, currentYear, sa, sq);
      Dataset(r, false, Annual) == [] && Dataset(r, false, Quarterly) == [] &&
      Visible(r, kind) == Dataset(r, true, kind) &&
      (forall q | q in Visible(r, kind) :: q.organizationAccess == Some(System))
  {
    var plan := Begin(s, now, force, Some(user)).start.plan;
    SystemRecordsAreSystem(sa, Annual, currentYear);
    SystemRecordsAreSystem(sq, Quarterly, currentYear);
  }

  /** A fetch for any other role issues four calls; its commit shows the scoped
      datasets, starts on the role's default view, and labels each unlabelled
      record of a plain user `personal`. */
  lemma RegularFetch(s: Snapshot, now: int, force: bool, user: User, t: int, currentYear: string,
                     ua: Payload, uq: Payload, sa: Payload, sq: Payload, kind: Kind)
    requires user.role != Some("super_admin")
    requires Begin(s, now, force, Some(user)).start.Started?
    ensures var plan := Begin(s, now, force, Some(user)).start.plan;
      plan.ScopedPlusPlatformPlan? && |Calls(plan)| == 4 &&
      var r := CommitScopedPlusPlatform(Begin(s, now, force, Some(user)).state, plan, t, currentYear, user, ua, uq, sa, sq);
      r.activeDataFilter == DefaultFilterForUser(Some(user)) && r.activeDataFilter != System &&
      Visible(r, Annual) == NormalizeResponse(ua, Annual, UserOrigin(user.role), currentYear) &&
      Visible(r, Quarterly) == NormalizeResponse(uq, Quarterly, UserOrigin(user.role), currentYear)
  {
  }

  /** The plain-user scenario: two unlabelled annual records are shown, both
      labelled `personal`, on the `personal` view. */
  lemma PlainUserScenario(s: Snapshot, plan: FetchPlan, t: int, currentYear: string, id: string,
                          p1: Prediction, p2: Prediction, uq: Payload, sa: Payload, sq: Payload)
    requires plan.ScopedPlusPlatformPlan?
    requires !Filled(p1.accessLevel) && !Filled(p1.organizationAccess)
    requires !Filled(p2.accessLevel) && !Filled(p2.organizationAccess)
    ensures var user := User(id, Some("user"));
      var r := CommitScopedPlusPlatform(s, plan, t, currentYear, user, ArrayData([p1, p2]), uq, sa, sq);
      r.activeDataFilter == Personal &&
      Visible(r, Annual) == [NormalizeRecord(p1, Annual, Personal, currentYear),
                             NormalizeRecord(p2, Annual, Personal, currentYear)] &&
      Visible(r, Annual)[0].organizationAccess == Some(Personal) &&
      Visible(r, Annual)[1].organizationAccess == Some(Personal)
  {
  }

  /** The platform-only scenario: an empty quarterly response gives an empty
      dataset whose pagination reports nothing more. */
  lemma SuperAdminEmptyQuarterScenario(s: Snapshot, plan: FetchPlan, t: int, currentYear: string, sa: Payload)
    requires plan.PlatformOnlyPlan?
    ensures var r := CommitPlatformOnly(s, plan, t, currentYear, sa, ArrayData([]));
      r.systemQuarterlyPredictions == [] && !r.systemQuarterlyPagination.hasMore &&
      r.annualPredictions == [] && r.quarterlyPredictions == [] && r.activeDataFilter == System
  {
  }

  /** A failed fetch leaves the cache exactly as it was before the request; an
      authentication failure also leaves no error behind. */
  lemma FailureKeepsCache(s: Snapshot, now: int, force: bool, user: User, e: FetchError)
    requires Begin(s, now, force, Some(user)).start.Started?
    ensures var r := Fail(Begin(s, now, force, Some(user)).state, e);
      SameCache(r, s) && !r.isFetching && (IsAuthError(e) ==> r.error.None?)
  {
  }

  /** Every transition keeps all four pagination records consistent. */
  lemma TransitionsPreserveConsistency(s: Snapshot, now: int, force: bool, user: Option<User>, e: FetchError,
                                       p: Prediction, kind: Kind, id: string, filter: string)
    requires AllConsistent(s)
    ensures AllConsistent(Begin(s, now, force, user).state)
    ensures AllConsistent(Fail(s, e))
    ensures AllConsistent(AddLocal(s, p, kind)) && AllConsistent(ReplaceLocal(s, p, kind, id))
    ensures AllConsistent(RemoveLocal(s, id, kind))
    ensures AllConsistent(SetFilter(s, filter)) && AllConsistent(Invalidate(s)) && AllConsistent(ClearError(s))
  {
  }

  /** All four paginations are on their first page. */
  predicate OnFirstPage(s: Snapshot) {
    s.annualPagination.currentPage == 1 && s.quarterlyPagination.currentPage == 1 &&
    s.systemAnnualPagination.currentPage == 1 && s.systemQuarterlyPagination.currentPage == 1
  }

  /** Nothing in the store ever moves a pagination off page 1: the initial state
      starts there, every transition stays there, and so every call a fetch
      issues asks for page 1. */
  lemma EveryFetchAsksForFirstPage(s: Snapshot, now: int, force: bool, user: Option<User>, u: User, e: FetchError,
                                   p: Prediction, kind: Kind, id: string, filter: string,
                                   plan: FetchPlan, currentYear: string,
                                   ua: Payload, uq: Payload, sa: Payload, sq: Payload)
    requires OnFirstPage(s)
    ensures OnFirstPage(Initial())
    ensures OnFirstPage(Begin(s, now, force, user).state) && OnFirstPage(Fail(s, e))
    ensures plan.PlatformOnlyPlan? ==> OnFirstPage(CommitPlatformOnly(s, plan, now, currentYear, sa, sq))
    ensures plan.ScopedPlusPlatformPlan? ==>
      OnFirstPage(CommitScopedPlusPlatform(s, plan, now, currentYear, u, ua, uq, sa, sq))
    ensures OnFirstPage(AddLocal(s, p, kind)) && OnFirstPage(ReplaceLocal(s, p, kind, id))
    ensures OnFirstPage(RemoveLocal(s, id, kind))
    ensures OnFirstPage(SetFilter(s, filter)) && OnFirstPage(Invalidate(s)) && OnFirstPage(ClearError(s))
    ensures forall c | c in Calls(PlanFor(s, u)) :: c.page == 1
  {
    var calls := Calls(PlanFor(s, u));
    forall c | c in calls
      ensures c.page == 1
    {
      assert c.page == PaginationFor(s, c.endpoint).currentPage;
    }
  }

  /** The platform-only commit keeps the invariant too: it rebuilds the platform
      records and leaves the scoped ones. */
  lemma PlatformOnlyCommitPreservesConsistency(s: Snapshot, plan: FetchPlan, t: int, currentYear: string,
                                               sa: Payload, sq: Payload)
    requires AllConsistent(s) && plan.PlatformOnlyPlan?
    ensures AllConsistent(CommitPlatformOnly(s, plan, t, currentYear, sa, sq))
  {
  }

  /** A record added locally shows first in the view of its own scope and kind,
      and does not show in the other view. */
  lemma AddedRecordVisibility(s: Snapshot, p: Prediction, kind: Kind)
    ensures IsSystemRecord(p) == (s.activeDataFilter == System) ==>
      Visible(AddLocal(s, p, kind), kind) == [p] + Visible(s, kind)
    ensures IsSystemRecord(p) != (s.activeDataFilter == System) ==>
      Visible(AddLocal(s, p, kind), kind) == Visible(s, kind)
  {
  }

  /** Replacing a placeholder shows the confirmed record at each of its
      positions, and the placeholder id is gone when the ids differ. */
  lemma ReplacedRecordVisibility(s: Snapshot, p: Prediction, kind: Kind, tempId: string)
    requires IsSystemRecord(p) == (s.activeDataFilter == System)
    requires p.id != tempId
    ensures var v := Visible(ReplaceLocal(s, p, kind, tempId), kind);
      |v| == |Visible(s, kind)| &&
      (forall i | 0 <= i < |v| :: Visible(s, kind)[i].id == tempId ==> v[i] == p) &&
      (forall x | x in v :: x.id != tempId)
  {
    ReplaceByIdRemovesPlaceholder(Visible(s, kind), tempId, p);
  }

  /** The confirmed record is matched against the dataset its own scope
      selects: a placeholder held only in the other side stays in place. */
  lemma ReplaceAcrossScopesKeepsPlaceholder(s: Snapshot, p: Prediction, kind: Kind, tempId: string)
    requires forall x | x in Dataset(s, IsSystemRecord(p), kind) :: x.id != tempId
    ensures ReplaceLocal(s, p, kind, tempId) == s
  {
    ReplaceByIdNoMatch(Dataset(s, IsSystemRecord(p), kind), tempId, p);
    var r := ReplaceLocal(s, p, kind, tempId);
    assert Dataset(r, false, Annual) == Dataset(s, false, Annual);
    assert Dataset(r, false, Quarterly) == Dataset(s, false, Quarterly);
    assert Dataset(r, true, Annual) == Dataset(s, true, Annual);
    assert Dataset(r, true, Quarterly) == Dataset(s, true, Quarterly);
  }

  /** Removing an id clears it from both views of the kind, keeps the other
      entries in order, and leaves the other kind alone. */
  lemma RemovedRecordVisibility(s: Snapshot, id: string, kind: Kind, other: Kind)
    requires other != kind
    ensures var r := RemoveLocal(s, id, kind);
      (forall x | x in Dataset(r, true, kind) + Dataset(r, false, kind) :: x.id != id) &&
      Visible(r, kind) == RemoveById(Visible(s, kind), id) &&
      Visible(r, other) == Visible(s, other)
  {
  }

  /** No cycle token guards the commit: a response that settles after `reset`
      repopulates the cleared store. */
  lemma CommitAfterResetRepopulates(plan: FetchPlan, t: int, currentYear: string, user: User,
                                    ua: Payload, uq: Payload, sa: Payload, sq: Payload)
    requires plan.ScopedPlusPlatformPlan?
    ensures var r := CommitScopedPlusPlatform(Initial(), plan, t, currentYear, user, ua, uq, sa, sq);
      r.isInitialized && r.lastFetched == Some(t) &&
      r.systemAnnualPredictions == NormalizeResponse(sa, Annual, SystemOrigin, currentYear)
  {
  }
}
