/** The tenant store of companies/models.py: companies (tenants), memberships
    (a user's role in a company) and partners (a company's legal
    stakeholders), with the soft-delete lifecycle of a company. */
module Tenancy {
  import opened Wrappers
  import Accounts

  type UserId = Accounts.UserId

  /** `str(company.id)`: the text form of the company's UUID. */
  type CompanyId = string

  type MembershipId = string

  /** A value of `timezone.now()`, supplied by the caller. */
  type Time = int

  datatype Role = Admin | Financial | Broker

  /** The role a membership gets when none is given. */
  const DefaultRole: Role := Broker

  /** The value stored in the `role` column for each choice. */
  function RoleValue(r: Role): string {
    match r
    case Admin => "admin"
    case Financial => "financial"
    case Broker => "broker"
  }

  /** The choice a stored value names, if any. */
  function ParseRole(s: string): (r: Option<Role>)
    ensures r.Some? ==> RoleValue(r.value) == s
  {
    if s == "admin" then Some(Admin)
    else if s == "financial" then Some(Financial)
    else if s == "broker" then Some(Broker)
    else None
  }

  /** Every role is stored as a value that reads back as that role. */
  lemma RoleValueRoundTrip(r: Role)
    ensures ParseRole(RoleValue(r)) == Some(r)
  {
  }

  /** The fields of a company that its forms edit. */
  datatype CompanyInfo = CompanyInfo(
    cnpj: string,
    legalName: string,
    tradeName: string,
    stateRegistration: string,
    phone: string,
    phone2: string,
    email: string,
    website: string,
    zipCode: string,
    address: string,
    number: string,
    complement: string,
    neighborhood: string,
    city: string,
    state: string)

  datatype Company = Company(
    id: CompanyId,
    info: CompanyInfo,
    isActive: bool,
    deactivatedAt: Option<Time>,
    deactivatedBy: Option<UserId>,
    createdAt: Time,
    updatedAt: Time,
    updatedBy: Option<UserId>)

  datatype Membership = Membership(
    id: MembershipId,
    user: UserId,
    company: CompanyId,
    role: Role,
    isActive: bool,
    dateJoined: Time)

  datatype PartnerInfo = PartnerInfo(name: string, cpf: string, email: string, phone: string)

  datatype Partner = Partner(company: CompanyId, info: PartnerInfo)

  /** `Company.__str__`: the trade name, or the legal name when there is none. */
  function CompanyStr(c: Company): (r: string)
    ensures c.info.tradeName != "" ==> r == c.info.tradeName
    ensures c.info.tradeName == "" ==> r == c.info.legalName
  {
    if c.info.tradeName != "" then c.info.tradeName else c.info.legalName
  }

  /** `Company.active`: the manager that only yields active companies. */
  function ActiveCompanies(cs: map<CompanyId, Company>): (r: map<CompanyId, Company>)
    ensures forall k :: k in r <==> k in cs && cs[k].isActive
    ensures forall k :: k in r ==> r[k] == cs[k]
  {
    map k | k in cs && cs[k].isActive :: cs[k]
  }

  /** A new membership row as `Membership.objects.create` stores it: active,
      joined now, with the default role unless one is given. */
  function NewMembership(id: MembershipId, user: UserId, company: CompanyId, role: Option<Role>, now: Time): (m: Membership)
    ensures m.role == (if role.Some? then role.value else Broker)
    ensures m.isActive && m.dateJoined == now
    ensures m.id == id && m.user == user && m.company == company
  {
    Membership(id, user, company, role.GetOr(DefaultRole), true, now)
  }

  // ---------------------------------------------------------------------
  // Integrity of the store
  // ---------------------------------------------------------------------

  /** Each company is stored under its own id. */
  ghost predicate KeysMatch(cs: map<CompanyId, Company>) {
    forall k :: k in cs ==> cs[k].id == k
  }

  /** The unique `cnpj` column. */
  ghost predicate CnpjUnique(cs: map<CompanyId, Company>) {
    forall a, b :: a in cs && b in cs && a != b ==> cs[a].info.cnpj != cs[b].info.cnpj
  }

  /** Membership ids are distinct and `unique_together = ('user', 'company')`. */
  ghost predicate MembershipsUnique(ms: seq<Membership>) {
    forall i, j :: 0 <= i < j < |ms| ==>
      ms[i].id != ms[j].id && (ms[i].user != ms[j].user || ms[i].company != ms[j].company)
  }

  /** The company foreign keys point at stored companies (companies are never
      hard-deleted, and the key is PROTECT for memberships). */
  ghost predicate References(cs: map<CompanyId, Company>, ms: seq<Membership>, ps: seq<Partner>) {
    && (forall i :: 0 <= i < |ms| ==> ms[i].company in cs)
    && (forall i :: 0 <= i < |ps| ==> ps[i].company in cs)
  }

  ghost predicate WellFormed(cs: map<CompanyId, Company>, ms: seq<Membership>, ps: seq<Partner>) {
    KeysMatch(cs) && CnpjUnique(cs) && MembershipsUnique(ms) && References(cs, ms, ps)
  }

  /** The soft-delete rule: an inactive company has only inactive memberships.
      It is not an integrity constraint of the store (an admin form can break
      it); the operations below say which of them keep it. */
  ghost predicate CascadeHolds(cs: map<CompanyId, Company>, ms: seq<Membership>) {
    forall i :: 0 <= i < |ms| && ms[i].company in cs && !cs[ms[i].company].isActive ==> !ms[i].isActive
  }

  /** Two membership rows that differ at most in `is_active`. */
  predicate SameExceptActive(a: Membership, b: Membership) {
    a.(isActive := b.isActive) == b
  }

  /** There is at most one membership per (user, company). */
  lemma OneMembershipPerPair(ms: seq<Membership>, i: nat, j: nat)
    requires MembershipsUnique(ms)
    requires i < |ms| && j < |ms|
    requires ms[i].user == ms[j].user && ms[i].company == ms[j].company
    ensures i == j
  {
  }

  // ---------------------------------------------------------------------
  // The soft-delete lifecycle
  // ---------------------------------------------------------------------

  /** The three fields `soft_delete` saves. */
  function SoftDeleted(c: Company, actor: Option<UserId>, now: Time): (d: Company)
    ensures !d.isActive && d.deactivatedAt == Some(now) && d.deactivatedBy == actor
    ensures d.(isActive := c.isActive, deactivatedAt := c.deactivatedAt, deactivatedBy := c.deactivatedBy) == c
  {
    c.(isActive := false, deactivatedAt := Some(now), deactivatedBy := actor)
  }

  /** The three fields `reactivate` saves. */
  function Reactivated(c: Company): (d: Company)
    ensures d.isActive && d.deactivatedAt.None? && d.deactivatedBy.None?
    ensures d.(isActive := c.isActive, deactivatedAt := c.deactivatedAt, deactivatedBy := c.deactivatedBy) == c
  {
    c.(isActive := true, deactivatedAt := None, deactivatedBy := None)
  }

  /** `memberships.update(is_active=False)` for every company in `s`. */
  function DeactivateMembershipsOf(ms: seq<Membership>, s: set<CompanyId>): (r: seq<Membership>)
    ensures |r| == |ms|
    ensures forall i :: 0 <= i < |ms| ==> SameExceptActive(r[i], ms[i])
    ensures forall i :: 0 <= i < |ms| && ms[i].company in s ==> !r[i].isActive
    ensures forall i :: 0 <= i < |ms| && ms[i].company !in s ==> r[i] == ms[i]
  {
    seq(|ms|, i requires 0 <= i < |ms| => if ms[i].company in s then ms[i].(isActive := false) else ms[i])
  }

  /** Changing only `is_active` of memberships keeps the store well formed. */
  lemma ActiveFlagsKeepWellFormed(cs: map<CompanyId, Company>, ms: seq<Membership>, ms': seq<Membership>, ps: seq<Partner>)
    requires WellFormed(cs, ms, ps)
    requires |ms'| == |ms| && forall i :: 0 <= i < |ms| ==> SameExceptActive(ms'[i], ms[i])
    ensures WellFormed(cs, ms', ps)
  {
    forall i | 0 <= i < |ms|
      ensures ms'[i].id == ms[i].id && ms'[i].user == ms[i].user && ms'[i].company == ms[i].company
    {
      assert ms'[i].(isActive := ms[i].isActive) == ms[i];
    }
  }

  /** Replacing a company by a row with the same id and unchanged `cnpj` keeps
      the store well formed. */
  lemma SameKeyKeepsWellFormed(cs: map<CompanyId, Company>, ms: seq<Membership>, ps: seq<Partner>, c: Company)
    requires WellFormed(cs, ms, ps)
    requires c.id in cs && c.info.cnpj == cs[c.id].info.cnpj
    ensures WellFormed(cs[c.id := c], ms, ps)
  {
  }

  /** After `soft_delete`, the company has no active membership, whatever
      held before, and the rule holds for every other company as before. */
  lemma {:induction false} SoftDeleteCascades(cs: map<CompanyId, Company>, ms: seq<Membership>, cid: CompanyId, actor: Option<UserId>, now: Time)
    requires cid in cs
    ensures var ms' := DeactivateMembershipsOf(ms, {cid});
            forall i :: 0 <= i < |ms'| && ms'[i].company == cid ==> !ms'[i].isActive
    ensures CascadeHolds(cs, ms) ==>
              CascadeHolds(cs[cid := SoftDeleted(cs[cid], actor, now)], DeactivateMembershipsOf(ms, {cid}))
  {
    var cs', ms' := cs[cid := SoftDeleted(cs[cid], actor, now)], DeactivateMembershipsOf(ms, {cid});
    forall i | 0 <= i < |ms'| && ms'[i].company == cid
      ensures !ms'[i].isActive
    {
      assert ms'[i].(isActive := ms[i].isActive) == ms[i];
    }
    if CascadeHolds(cs, ms) {
      forall i | 0 <= i < |ms'| && ms'[i].company in cs' && !cs'[ms'[i].company].isActive
        ensures !ms'[i].isActive
      {
        assert ms'[i].(isActive := ms[i].isActive) == ms[i];
      }
    }
  }

  /** Reactivating a company keeps the rule (it has nothing to say about an
      active company) and changes no membership. */
  lemma ReactivateKeepsCascade(cs: map<CompanyId, Company>, ms: seq<Membership>, cid: CompanyId)
    requires cid in cs && CascadeHolds(cs, ms)
    ensures CascadeHolds(cs[cid := Reactivated(cs[cid])], ms)
  {
  }

  /** `reactivate` twice leaves the fields as once, and on an active company
      with no deactivation record it changes nothing. */
  lemma ReactivateIdempotent(c: Company)
    ensures Reactivated(Reactivated(c)) == Reactivated(c)
    ensures c.isActive && c.deactivatedAt.None? && c.deactivatedBy.None? ==> Reactivated(c) == c
  {
  }

  /** `soft_delete` removes exactly that company from `Company.active`;
      `reactivate` adds exactly it. */
  lemma ActiveManagerTracksLifecycle(cs: map<CompanyId, Company>, cid: CompanyId, actor: Option<UserId>, now: Time)
    requires cid in cs
    ensures ActiveCompanies(cs[cid := SoftDeleted(cs[cid], actor, now)]).Keys == ActiveCompanies(cs).Keys - {cid}
    ensures ActiveCompanies(cs[cid := Reactivated(cs[cid])]).Keys == ActiveCompanies(cs).Keys + {cid}
  {
    var down := ActiveCompanies(cs[cid := SoftDeleted(cs[cid], actor, now)]);
    var up := ActiveCompanies(cs[cid := Reactivated(cs[cid])]);
    assert forall k :: k in down.Keys <==> k in ActiveCompanies(cs).Keys - {cid};
    assert forall k :: k in up.Keys <==> k in ActiveCompanies(cs).Keys + {cid};
  }

  /** The database: one table per model. Rows are values; a model instance
      and the row it was loaded from are the same value here. */
  class Db {
    var companies: map<CompanyId, Company>
    var memberships: seq<Membership>   // in insertion order; `.first()` orders by id instead
    var partners: seq<Partner>

    ghost predicate Valid()
      reads this
    {
      WellFormed(companies, memberships, partners)
    }

    constructor ()
      ensures Valid()
      ensures companies == map[] && memberships == [] && partners == []
    {
      companies, memberships, partners := map[], [], [];
    }

    /** `Company.soft_delete`: mark the company inactive, record when and by
        whom, and deactivate all of its memberships. */
    method SoftDelete(cid: CompanyId, actor: Option<UserId>, now: Time)
      requires Valid() && cid in companies
      modifies this
      ensures Valid()
      ensures companies == old(companies)[cid := SoftDeleted(old(companies)[cid], actor, now)]
      ensures memberships == DeactivateMembershipsOf(old(memberships), {cid})
      ensures partners == old(partners)
      ensures forall i :: 0 <= i < |memberships| && memberships[i].company == cid ==> !memberships[i].isActive
      ensures CascadeHolds(old(companies), old(memberships)) ==> CascadeHolds(companies, memberships)
    {
      SoftDeleteCascades(companies, memberships, cid, actor, now);
      var c := companies[cid];
      c := c.(isActive := false);
      c := c.(deactivatedAt := Some(now));
      c := c.(deactivatedBy := actor);
      SameKeyKeepsWellFormed(companies, memberships, partners, c);
      companies := companies[cid := c];
      ActiveFlagsKeepWellFormed(companies, memberships, DeactivateMembershipsOf(memberships, {cid}), partners);
      memberships := DeactivateMembershipsOf(memberships, {cid});
    }

    /** `Company.reactivate`: mark the company active and clear its
        deactivation record; its memberships stay as they are. */
    method Reactivate(cid: CompanyId)
      requires Valid() && cid in companies
      modifies this
      ensures Valid()
      ensures companies == old(companies)[cid := Reactivated(old(companies)[cid])]
      ensures memberships == old(memberships) && partners == old(partners)
      ensures CascadeHolds(old(companies), old(memberships)) ==> CascadeHolds(companies, memberships)
    {
      var c := companies[cid];
      c := c.(isActive := true);
      c := c.(deactivatedAt := None);
      c := c.(deactivatedBy := None);
      SameKeyKeepsWellFormed(companies, memberships, partners, c);
      companies := companies[cid := c];
    }
  }
}
