/** Tenant binding (companies/middleware.py): for every authenticated request
    on a path that is not exempt, find the company the user acts in, keep its
    id in the session, and attach it and the membership to the request, or
    send the user to create a company. */
module TenantBinding {
  import opened Wrappers
  import opened Text
  import opened Web
  import opened Tenancy

  /** The one session key this core reads and writes. */
  const CompanyIdKey: string := "company_id"

  /** `reverse('create_company')`: the companies app is mounted at
      /companies/ and the route is `new/`. */
  const CreateCompanyPath: string := "/companies/new/"

  /** The prefixes on which no binding happens, matched with `startswith`. */
  const ExemptPrefixes: seq<string> := [CreateCompanyPath, "/admin/", "/accounts/", "/static/", "/media/"]

  predicate IsExempt(path: string) {
    AnyPrefix(path, ExemptPrefixes)
  }

  /** The filter of both queries: a membership of `u` that is active, in a
      company that is active. */
  predicate Usable(cs: map<CompanyId, Company>, u: UserId, m: Membership) {
    m.user == u && m.isActive && m.company in cs && cs[m.company].isActive
  }

  predicate HasUsable(cs: map<CompanyId, Company>, ms: seq<Membership>, u: UserId) {
    exists i :: 0 <= i < |ms| && Usable(cs, u, ms[i])
  }

  /** `session.get('company_id')`, with the absent key read as "" (both are
      false for `if company_id:`). */
  function StoredId(session: map<string, string>): (id: string)
    ensures CompanyIdKey in session ==> id == session[CompanyIdKey]
    ensures CompanyIdKey !in session ==> id == ""
  {
    if CompanyIdKey in session then session[CompanyIdKey] else ""
  }

  /** The session names a company in which the user has a usable membership. */
  predicate PointsAtUsable(cs: map<CompanyId, Company>, ms: seq<Membership>, u: UserId, session: map<string, string>) {
    StoredId(session) != ""
    && exists i :: 0 <= i < |ms| && Usable(cs, u, ms[i]) && ms[i].company == StoredId(session)
  }

  /** The first position of `s` that satisfies `p`. */
  function FirstIndex<T>(s: seq<T>, p: T -> bool): (r: Option<nat>)
    ensures r.Some? ==> r.value < |s| && p(s[r.value]) && forall j :: 0 <= j < r.value ==> !p(s[j])
    ensures r.None? ==> forall j :: 0 <= j < |s| ==> !p(s[j])
  {
    if s == [] then None
    else if p(s[0]) then Some(0)
    else match FirstIndex(s[1..], p)
      case None => None
      case Some(k) => Some(k + 1)
  }

  /** A position of `s` that satisfies `p` and whose `key` is least among
      those that do: the row `.first()` returns from a query with no
      ordering of its own, which Django then orders by primary key. */
  function LeastIndex<T>(s: seq<T>, p: T -> bool, key: T -> string): (r: Option<nat>)
    ensures r.Some? ==> r.value < |s| && p(s[r.value])
    ensures r.None? ==> forall j :: 0 <= j < |s| ==> !p(s[j])
    decreases |s|
  {
    if s == [] then None
    else
      var rest := LeastIndex(s[1..], p, key);
      if rest.Some? && (!p(s[0]) || !LexLe(key(s[0]), key(s[rest.value + 1]))) then Some(rest.value + 1)
      else if p(s[0]) then Some(0)
      else None
  }

  /** No position that satisfies `p` has a smaller key than the one found. */
  lemma {:induction false} LeastIndexIsLeast<T>(s: seq<T>, p: T -> bool, key: T -> string)
    ensures var r := LeastIndex(s, p, key);
            r.Some? ==> forall j :: 0 <= j < |s| && p(s[j]) ==> LexLe(key(s[r.value]), key(s[j]))
    decreases |s|
  {
    if s != [] {
      var rest := LeastIndex(s[1..], p, key);
      LeastIndexIsLeast(s[1..], p, key);
      var r := LeastIndex(s, p, key);
      if r.Some? {
        var m := key(s[r.value]);
        forall j | 0 <= j < |s| && p(s[j]) ensures LexLe(m, key(s[j])) {
          if j == r.value {
            LexLeTotal(m, m);
          } else if j == 0 {
            LexLeTotal(key(s[0]), m);
          } else {
            assert s[j] == s[1..][j - 1];
            if r.value == 0 {
              LexLeTrans(m, key(s[rest.value + 1]), key(s[j]));
            }
          }
        }
      }
    }
  }

  /** The `.get(...)` for the stored id: a usable membership of `u` in
      company `id`. The store keeps one membership per (user, company), so
      at most one matches. */
  function StoredLookup(cs: map<CompanyId, Company>, ms: seq<Membership>, u: UserId, id: CompanyId): (r: Option<nat>)
    ensures r.Some? ==> r.value < |ms| && Usable(cs, u, ms[r.value]) && ms[r.value].company == id
    ensures r.None? ==> forall j :: 0 <= j < |ms| ==> !(Usable(cs, u, ms[j]) && ms[j].company == id)
  {
    FirstIndex(ms, (m: Membership) => Usable(cs, u, m) && m.company == id)
  }

  /** The fallback `.filter(...).first()`: the usable membership of `u` with
      the least primary key. */
  function Fallback(cs: map<CompanyId, Company>, ms: seq<Membership>, u: UserId): (r: Option<nat>)
    ensures r.Some? ==> r.value < |ms| && Usable(cs, u, ms[r.value])
                        && forall j :: 0 <= j < |ms| && Usable(cs, u, ms[j]) ==> LexLe(ms[r.value].id, ms[j].id)
    ensures r.None? <==> !HasUsable(cs, ms, u)
  {
    var p := (m: Membership) => Usable(cs, u, m);
    LeastIndexIsLeast(ms, p, (m: Membership) => m.id);
    LeastIndex(ms, p, (m: Membership) => m.id)
  }

  /** What one request ends with: the session, the membership bound to the
      request (if any), and whether the rest of the chain runs. */
  datatype Resolution = Resolution(session: map<string, string>, bound: Option<Membership>, step: Step)

  /** `CompanyMiddleware.__call__` over a snapshot of the store. */
  function Resolve(cs: map<CompanyId, Company>, ms: seq<Membership>, user: Option<UserId>, path: string,
                   session: map<string, string>): (r: Resolution)
    // anonymous or exempt: passed through untouched
    ensures user.None? || IsExempt(path) ==> r == Resolution(session, None, Continue)
    // otherwise: bound, or redirected to onboarding exactly when nothing is usable
    ensures user.Some? && !IsExempt(path) ==>
              && (r.step == Continue <==> r.bound.Some?)
              && (r.step.Respond? ==> r.step.response == Redirect(CreateCompanyPath))
              && (r.bound.None? <==> !HasUsable(cs, ms, user.value))
    // what is bound is usable, stored, and what the session now points at
    ensures r.bound.Some? ==>
              && user.Some? && Usable(cs, user.value, r.bound.value) && r.bound.value in ms
              && CompanyIdKey in r.session && r.session[CompanyIdKey] == r.bound.value.company
    // a valid pointer is reused and the session is not modified
    ensures user.Some? && !IsExempt(path) && PointsAtUsable(cs, ms, user.value, session) ==>
              r.session == session && r.bound.Some? && r.bound.value.company == StoredId(session)
    // a stale pointer is dropped: afterwards the key holds the fallback's id or is absent
    ensures user.Some? && !IsExempt(path) && StoredId(session) != "" && !PointsAtUsable(cs, ms, user.value, session) ==>
              (CompanyIdKey in r.session ==> r.bound.Some?)
    // the fallback takes the usable membership with the least primary key
    ensures user.Some? && !PointsAtUsable(cs, ms, user.value, session) && r.bound.Some? ==>
              forall i :: 0 <= i < |ms| && Usable(cs, user.value, ms[i]) ==> LexLe(r.bound.value.id, ms[i].id)
    // when nothing is bound, the only change is that a stale pointer is deleted
    ensures r.bound.None? ==>
              r.session == if user.Some? && !IsExempt(path) && StoredId(session) != "" then session - {CompanyIdKey}
                           else session
    // no other session key is touched
    ensures forall k :: k != CompanyIdKey ==>
              (k in r.session <==> k in session) && (k in session ==> r.session[k] == session[k])
  {
    if user.None? || IsExempt(path) then Resolution(session, None, Continue)
    else
      var u, stored := user.value, StoredId(session);
      var hit := if stored != "" then StoredLookup(cs, ms, u, stored) else None;
      if hit.Some? then
        Resolution(session, Some(ms[hit.value]), Continue)
      else
        assert !PointsAtUsable(cs, ms, u, session);
        var purged := if stored != "" then session - {CompanyIdKey} else session;
        match Fallback(cs, ms, u)
        case Some(j) => Resolution(purged[CompanyIdKey := ms[j].company], Some(ms[j]), Continue)
        case None => Resolution(purged, None, Respond(Redirect(CreateCompanyPath)))
  }

  /** The membership found for a stored id is the user's only membership in
      that company, as `.get(...)` expects. */
  lemma StoredBindingIsUnique(cs: map<CompanyId, Company>, ms: seq<Membership>, u: UserId, path: string,
                              session: map<string, string>, i: nat)
    requires MembershipsUnique(ms)
    requires !IsExempt(path) && PointsAtUsable(cs, ms, u, session)
    requires i < |ms| && ms[i].user == u && ms[i].company == StoredId(session)
    ensures Resolve(cs, ms, Some(u), path, session).bound == Some(ms[i])
  {
    var m := Resolve(cs, ms, Some(u), path, session).bound.value;
    var j :| 0 <= j < |ms| && ms[j] == m;
    OneMembershipPerPair(ms, i, j);
  }

  /** An empty stored id is neither looked up nor deleted: with nothing usable
      the session keeps it. */
  lemma EmptyPointerIsKept(cs: map<CompanyId, Company>, ms: seq<Membership>, u: UserId, path: string,
                           session: map<string, string>)
    requires !IsExempt(path) && CompanyIdKey in session && session[CompanyIdKey] == ""
    requires !HasUsable(cs, ms, u)
    ensures Resolve(cs, ms, Some(u), path, session) == Resolution(session, None, Respond(Redirect(CreateCompanyPath)))
  {
    assert Fallback(cs, ms, u).None?;
  }

  /** The session of one request. */
  class Session {
    var data: map<string, string>

    constructor (data: map<string, string>)
      ensures this.data == data
    {
      this.data := data;
    }
  }

  /** One request: its path and user are fixed; `company` and `membership`
      are the attributes the middleware may set (`None` while unset). */
  class Request {
    const path: string
    const user: Option<UserId>   // None for an anonymous user
    var company: Option<Company>
    var membership: Option<Membership>

    constructor (path: string, user: Option<UserId>)
      ensures this.path == path && this.user == user
      ensures company.None? && membership.None?
    {
      this.path, this.user := path, user;
      company, membership := None, None;
    }
  }

  /** `CompanyMiddleware.__call__`: the session and the request are changed in
      place as `Resolve` describes. */
  method CompanyMiddleware(db: Db, session: Session, request: Request) returns (step: Step)
    requires db.Valid()
    modifies session, request
    ensures var r := Resolve(db.companies, db.memberships, request.user, request.path, old(session.data));
            && step == r.step && session.data == r.session
            && (r.bound.Some? ==> request.membership == r.bound
                                  && request.company == Some(db.companies[r.bound.value.company]))
            && (r.bound.None? ==> request.membership == old(request.membership)
                                  && request.company == old(request.company))
    ensures request.membership != old(request.membership) || request.company != old(request.company) ==>
              && request.user.Some? && request.membership.Some? && request.company.Some?
              && Usable(db.companies, request.user.value, request.membership.value)
              && request.company.value.id == request.membership.value.company
              && request.company.value == db.companies[request.company.value.id]
  {
    if request.user.None? {
      return Continue;
    }
    var user := request.user.value;
    if IsExempt(request.path) {
      return Continue;
    }

    var companyId := StoredId(session.data);
    var activeCompany: Option<Company> := None;
    var membership: Option<Membership> := None;

    if companyId != "" {
      var hit := StoredLookup(db.companies, db.memberships, user, companyId);
      if hit.Some? {
        membership := Some(db.memberships[hit.value]);
        activeCompany := Some(db.companies[membership.value.company]);
      } else if CompanyIdKey in session.data {
        session.data := session.data - {CompanyIdKey};
      }
    }

    if activeCompany.None? {
      var first := Fallback(db.companies, db.memberships, user);
      if first.Some? {
        membership := Some(db.memberships[first.value]);
        activeCompany := Some(db.companies[membership.value.company]);
        session.data := session.data[CompanyIdKey := activeCompany.value.id];
      }
    }

    if activeCompany.Some? {
      request.company := activeCompany;
      request.membership := membership;
    } else {
      return Respond(Redirect(CreateCompanyPath));
    }
    return Continue;
  }
}
