/** Role-based decisions: which endpoints a fetch calls, which view a user starts
    on, and which scope label a fetched record carries. */
module Scope {
  import opened Values
  import opened Entities

  const Personal := "personal"
  const Organization := "organization"
  const System := "system"

  /** `getDefaultFilterForUser`: the view a user starts on after a fetch. */
  function DefaultFilterForUser(user: Option<User>): (f: string)
    ensures f == Personal || f == Organization || f == System
    ensures f == System <==> user.Some? && user.value.role == Some("super_admin")
    ensures f == Organization <==>
      user.Some? && (user.value.role == Some("org_admin") || user.value.role == Some("org_member")
                     || user.value.role == Some("tenant_admin"))
  {
    if user.None? then Personal
    else
      var role := user.value.role;
      if role == Some("user") then Personal
      else if role == Some("super_admin") then System
      else if role == Some("org_admin") || role == Some("org_member") then Organization
      else if role == Some("tenant_admin") then Organization
      else Personal
  }

  /** The two fetch strategies: platform data only, or scoped plus platform data. */
  datatype Strategy = PlatformOnly | ScopedPlusPlatform

  /** `user.role === 'super_admin'` selects the platform-only strategy; it is the
      one role whose default view is the platform view. */
  function StrategyFor(user: User): (s: Strategy)
    ensures s == PlatformOnly <==> DefaultFilterForUser(Some(user)) == System
  {
    if user.role == Some("super_admin") then PlatformOnly else ScopedPlusPlatform
  }

  /** The scope label of a record from a scoped endpoint:
      `access_level || organization_access || (org role ? 'organization' : 'personal')`. */
  function UserRecordAccess(p: Prediction, role: Option<string>): (a: string)
    ensures Filled(p.accessLevel) ==> a == p.accessLevel.value
    ensures !Filled(p.accessLevel) && Filled(p.organizationAccess) ==> a == p.organizationAccess.value
    ensures !Filled(p.accessLevel) && !Filled(p.organizationAccess) ==>
      (a == Organization <==> role == Some("org_admin") || role == Some("org_member")) &&
      (a == Organization || a == Personal)
    ensures a != ""
  {
    if Filled(p.accessLevel) then p.accessLevel.value
    else if Filled(p.organizationAccess) then p.organizationAccess.value
    else if role == Some("org_admin") || role == Some("org_member") then Organization
    else Personal
  }

  /** A tenant administrator starts on the organization view, yet an unlabelled
      record fetched for them is labelled personal. */
  lemma TenantAdminLabelDiffersFromView(p: Prediction, id: string)
    requires !Filled(p.accessLevel) && !Filled(p.organizationAccess)
    ensures UserRecordAccess(p, Some("tenant_admin")) == Personal
    ensures DefaultFilterForUser(Some(User(id, Some("tenant_admin")))) == Organization
  {
  }
}
