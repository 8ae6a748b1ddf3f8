/** The role gate of companies/decorators.py: a view wrapped by
    `role_required(allowed_roles)` runs only for a bound membership whose
    role is allowed; otherwise PermissionDenied is raised (HTTP 403), never a
    redirect. */
module RoleGate {
  import opened Wrappers
  import opened Tenancy

  datatype Denial = PermissionDenied

  /** The two tests of `_wrapped_view`, in order: no membership, then a role
      outside the allow-list. */
  predicate Permits(allowedRoles: seq<Role>, membership: Option<Membership>) {
    membership.Some? && membership.value.role in allowedRoles
  }

  /** `role_required(allowed_roles)(view)` applied to a request (with its
      other arguments bundled in `call`) whose bound membership is
      `membership`. The view is called with `call` itself and its result is
      returned as it is. */
  function RoleRequired<Q, R>(allowedRoles: seq<Role>, view: Q -> R, membership: Option<Membership>, call: Q)
    : (r: Result<R, Denial>)
    ensures r.Ok? <==> membership.Some? && membership.value.role in allowedRoles
    ensures r.Ok? ==> r.value == view(call)
    ensures r.Err? ==> r.error == PermissionDenied
  {
    if membership.None? then Err(PermissionDenied)
    else if membership.value.role !in allowedRoles then Err(PermissionDenied)
    else Ok(view(call))
  }

  /** No membership: denied, whatever the allow-list. */
  lemma MissingMembershipDenied<Q, R>(allowedRoles: seq<Role>, view: Q -> R, call: Q)
    ensures RoleRequired(allowedRoles, view, None, call) == Err(PermissionDenied)
  {
  }

  /** An empty allow-list denies every membership. */
  lemma EmptyAllowListDeniesAll<Q, R>(view: Q -> R, membership: Option<Membership>, call: Q)
    ensures RoleRequired([], view, membership, call) == Err(PermissionDenied)
  {
  }

  /** Widening the allow-list never turns a permitted call into a denied one. */
  lemma AllowListMonotone(small: seq<Role>, large: seq<Role>, membership: Option<Membership>)
    requires forall r :: r in small ==> r in large
    ensures Permits(small, membership) ==> Permits(large, membership)
  {
  }
}
