/** The company pages of companies/views.py: onboarding (`create_company`),
    the company profile (`company_detail`) and its edit form
    (`company_update`). Form contents and their field validation are inputs;
    the views decide what is written and which response is returned. */
module CompanyViews {
  import opened Wrappers
  import opened Web
  import opened Tenancy
  import opened TenantBinding
  import opened RoleGate

  /** `redirect('home')`: the home page is the site root. */
  const HomePath: string := "/"

  /** `redirect('company_detail')`. */
  const CompanyDetailPath: string := "/companies/profile/"

  const CreateTemplate: string := "companies/create_company.html"
  const DetailTemplate: string := "companies/company_detail.html"
  const UpdateTemplate: string := "companies/company_update.html"

  /** The allow-list both profile views are decorated with. */
  const ManagerRoles: seq<Role> := [Admin, Financial]

  datatype HttpMethod = Get | Post

  /** A bound `CompanyCreateForm`: the cleaned fields and whether the field
      validators (lengths, e-mail, URL, state choices) accepted them. */
  datatype CompanyForm = CompanyForm(info: CompanyInfo, fieldsValid: bool)

  /** A bound `PartnerFormSet`: the partners the company has once the formset
      is saved (kept and edited rows, then added rows; deleted rows left out),
      and whether every form of the set validated. */
  datatype PartnerSubmission = PartnerSubmission(partners: seq<PartnerInfo>, valid: bool)

  /** Another company than `instance` already holds `cnpj`. */
  predicate CnpjTaken(cs: map<CompanyId, Company>, cnpj: string, instance: Option<CompanyId>) {
    exists k :: k in cs && Some(k) != instance && cs[k].info.cnpj == cnpj
  }

  /** `form.is_valid()`: the fields validate and the unique `cnpj` check,
      which leaves the edited instance itself out, passes. */
  predicate FormValid(cs: map<CompanyId, Company>, form: CompanyForm, instance: Option<CompanyId>) {
    form.fieldsValid && !CnpjTaken(cs, form.info.cnpj, instance)
  }

  /** `request.user.memberships.filter(is_active=True).exists()`: only the
      membership's own flag is looked at, not its company's. */
  predicate HasActiveMembership(ms: seq<Membership>, u: UserId) {
    exists i :: 0 <= i < |ms| && ms[i].user == u && ms[i].isActive
  }

  /** The row `company.save()` inserts for a new company: active, created and
      updated now, updated by its creator. */
  function NewCompany(id: CompanyId, info: CompanyInfo, user: UserId, now: Time): (c: Company)
    ensures c.id == id && c.info == info && c.isActive
    ensures c.deactivatedAt.None? && c.deactivatedBy.None?
    ensures c.createdAt == now && c.updatedAt == now && c.updatedBy == Some(user)
  {
    Company(id, info, true, None, None, now, now, Some(user))
  }

  // ---------------------------------------------------------------------
  // Partners of a company
  // ---------------------------------------------------------------------

  /** `company.partners_list`, in store order. */
  function PartnersOf(ps: seq<Partner>, cid: CompanyId): (r: seq<PartnerInfo>)
    ensures |r| <= |ps|
  {
    if ps == [] then []
    else (if ps[0].company == cid then [ps[0].info] else []) + PartnersOf(ps[1..], cid)
  }

  /** The rows a formset saves for `cid` (`formset.instance = company`). */
  function Linked(cid: CompanyId, infos: seq<PartnerInfo>): (r: seq<Partner>)
    ensures |r| == |infos| && forall i :: 0 <= i < |r| ==> r[i] == Partner(cid, infos[i])
  {
    seq(|infos|, i requires 0 <= i < |infos| => Partner(cid, infos[i]))
  }

  /** The partners of every company but `cid`, in store order. */
  function OtherPartners(ps: seq<Partner>, cid: CompanyId): (r: seq<Partner>)
    ensures forall i :: 0 <= i < |r| ==> r[i] in ps && r[i].company != cid
  {
    if ps == [] then []
    else (if ps[0].company != cid then [ps[0]] else []) + OtherPartners(ps[1..], cid)
  }

  /** The partner table after a company's formset is saved. */
  function ReplacePartners(ps: seq<Partner>, cid: CompanyId, infos: seq<PartnerInfo>): seq<Partner> {
    OtherPartners(ps, cid) + Linked(cid, infos)
  }

  lemma {:induction false} PartnersOfAppend(a: seq<Partner>, b: seq<Partner>, k: CompanyId)
    ensures PartnersOf(a + b, k) == PartnersOf(a, k) + PartnersOf(b, k)
    decreases |a|
  {
    if a == [] {
      assert a + b == b;
    } else {
      var ab := a + b;
      assert ab[0] == a[0] && ab[1..] == a[1..] + b;
      var h := if a[0].company == k then [a[0].info] else [];
      assert PartnersOf(ab, k) == h + PartnersOf(a[1..] + b, k);
      PartnersOfAppend(a[1..], b, k);
      assert PartnersOf(a, k) == h + PartnersOf(a[1..], k);
    }
  }

  lemma {:induction false} PartnersOfLinked(cid: CompanyId, infos: seq<PartnerInfo>, k: CompanyId)
    ensures PartnersOf(Linked(cid, infos), k) == if k == cid then infos else []
    decreases |infos|
  {
    if infos != [] {
      assert Linked(cid, infos)[1..] == Linked(cid, infos[1..]);
      PartnersOfLinked(cid, infos[1..], k);
      assert infos == [infos[0]] + infos[1..];
    }
  }

  lemma {:induction false} PartnersOfOthers(ps: seq<Partner>, cid: CompanyId, k: CompanyId)
    ensures PartnersOf(OtherPartners(ps, cid), k) == if k == cid then [] else PartnersOf(ps, k)
    decreases |ps|
  {
    if ps != [] {
      var head: seq<Partner> := if ps[0].company != cid then [ps[0]] else [];
      PartnersOfAppend(head, OtherPartners(ps[1..], cid), k);
      PartnersOfOthers(ps[1..], cid, k);
      if head != [] {
        assert head[1..] == [];
      }
    }
  }

  /** Saving a company's formset leaves it exactly the submitted partners and
      every other company the partners it had. */
  lemma ReplacePartnersEffect(ps: seq<Partner>, cid: CompanyId, infos: seq<PartnerInfo>, k: CompanyId)
    ensures PartnersOf(ReplacePartners(ps, cid, infos), k) == if k == cid then infos else PartnersOf(ps, k)
  {
    PartnersOfAppend(OtherPartners(ps, cid), Linked(cid, infos), k);
    PartnersOfOthers(ps, cid, k);
    PartnersOfLinked(cid, infos, k);
  }

  // ---------------------------------------------------------------------
  // The views
  // ---------------------------------------------------------------------

  /** `create_company` for the logged-in user `user`. A user with an active
      membership goes home; a valid POST writes the company, the creator's
      admin membership and the partners in one transaction and stores the new
      company id in the session; anything else renders the onboarding page.
      `newId` and `newMembershipId` are the fresh UUIDs the model defaults
      draw. */
  method CreateCompany(db: Db, session: Session, user: UserId, verb: HttpMethod, form: CompanyForm,
                       formset: PartnerSubmission, newId: CompanyId, newMembershipId: MembershipId, now: Time)
    returns (response: Response)
    requires db.Valid()
    requires newId !in db.companies
    requires forall i :: 0 <= i < |db.memberships| ==> db.memberships[i].id != newMembershipId
    modifies db, session
    ensures db.Valid()
    ensures HasActiveMembership(old(db.memberships), user) ==>
              response == Redirect(HomePath) && unchanged(db) && unchanged(session)
    ensures !HasActiveMembership(old(db.memberships), user)
            && !(verb == Post && FormValid(old(db.companies), form, None) && formset.valid) ==>
              response == Render(CreateTemplate) && unchanged(db) && unchanged(session)
    ensures !HasActiveMembership(old(db.memberships), user)
            && verb == Post && FormValid(old(db.companies), form, None) && formset.valid ==>
              && response == Redirect(HomePath)
              && db.companies == old(db.companies)[newId := NewCompany(newId, form.info, user, now)]
              && db.memberships == old(db.memberships) + [NewMembership(newMembershipId, user, newId, Some(Admin), now)]
              && db.partners == old(db.partners) + Linked(newId, formset.partners)
              && session.data == old(session.data)[CompanyIdKey := newId]
    ensures CascadeHolds(old(db.companies), old(db.memberships)) ==> CascadeHolds(db.companies, db.memberships)
  {
    if HasActiveMembership(db.memberships, user) {
      return Redirect(HomePath);
    }
    if verb == Post {
      if FormValid(db.companies, form, None) && formset.valid {
        var company := NewCompany(newId, form.info, user, now);
        var membership := NewMembership(newMembershipId, user, newId, Some(Admin), now);
        assert forall i :: 0 <= i < |db.memberships| ==> db.memberships[i].company != newId;
        db.companies := db.companies[newId := company];
        db.memberships := db.memberships + [membership];
        db.partners := db.partners + Linked(newId, formset.partners);
        session.data := session.data[CompanyIdKey := newId];
        return Redirect(HomePath);
      }
    }
    return Render(CreateTemplate);
  }

  /** `company_detail`: the profile page for the roles of `ManagerRoles`,
      403 for anyone else. */
  function CompanyDetail(membership: Option<Membership>, company: Option<Company>): (r: Response)
    ensures r == Render(DetailTemplate) <==> Permits(ManagerRoles, membership)
    ensures r != Render(DetailTemplate) ==> r == Forbidden
  {
    match RoleRequired(ManagerRoles, (c: Option<Company>) => Render(DetailTemplate), membership, company)
    case Ok(page) => page
    case Err(_) => Forbidden
  }

  /** A broker never sees the company profile. */
  lemma BrokerDenied(m: Membership, company: Option<Company>)
    requires m.role == Broker
    ensures CompanyDetail(Some(m), company) == Forbidden
  {
  }

  /** `company_update` for the logged-in user `user`, with the request
      attributes the tenant binding set: `company` is the row the binding
      loaded for `membership`. Past the role gate, a valid POST saves the edited
      fields (stamped with the user and the time) and the partner formset in
      one transaction and goes to the profile page; anything else renders the
      edit form. The company's status fields are not on the form and keep the
      values loaded. */
  method CompanyUpdate(db: Db, user: UserId, membership: Option<Membership>, company: Option<Company>,
                       verb: HttpMethod, form: CompanyForm, formset: PartnerSubmission, now: Time)
    returns (response: Response)
    requires db.Valid()
    requires membership.Some? ==>
               && company.Some? && company.value.id == membership.value.company
               && company.value.id in db.companies && db.companies[company.value.id] == company.value
    modifies db
    ensures db.Valid()
    ensures !Permits(ManagerRoles, membership) ==> response == Forbidden && unchanged(db)
    ensures Permits(ManagerRoles, membership)
            && !(verb == Post && FormValid(old(db.companies), form, Some(company.value.id)) && formset.valid) ==>
              response == Render(UpdateTemplate) && unchanged(db)
    ensures Permits(ManagerRoles, membership)
            && verb == Post && FormValid(old(db.companies), form, Some(company.value.id)) && formset.valid ==>
              var cid := company.value.id;
              && response == Redirect(CompanyDetailPath)
              && db.companies == old(db.companies)[cid := company.value.(info := form.info, updatedBy := Some(user), updatedAt := now)]
              && db.memberships == old(db.memberships)
              && db.partners == ReplacePartners(old(db.partners), cid, formset.partners)
    ensures CascadeHolds(old(db.companies), old(db.memberships)) ==> CascadeHolds(db.companies, db.memberships)
  {
    if !Permits(ManagerRoles, membership) {
      return Forbidden;
    }
    var c := company.value;
    if verb == Post {
      if FormValid(db.companies, form, Some(c.id)) && formset.valid {
        c := c.(info := form.info);
        c := c.(updatedBy := Some(user));
        c := c.(updatedAt := now);
        db.companies := db.companies[c.id := c];
        db.partners := ReplacePartners(db.partners, c.id, formset.partners);
        return Redirect(CompanyDetailPath);
      }
    }
    return Render(UpdateTemplate);
  }

  // ---------------------------------------------------------------------
  // Onboarding and the tenant binding together
  // ---------------------------------------------------------------------

  /** After a successful `create_company`, the next request on a bound page
      is bound to the new company, through the creator's admin membership,
      without touching the session. */
  lemma CreatedCompanyIsBound(cs: map<CompanyId, Company>, ms: seq<Membership>, ps: seq<Partner>,
                              session: map<string, string>, user: UserId, path: string, info: CompanyInfo,
                              newId: CompanyId, newMembershipId: MembershipId, now: Time)
    requires WellFormed(cs, ms, ps)
    requires newId !in cs && newId != ""
    requires !IsExempt(path)
    ensures var cs', ms' := cs[newId := NewCompany(newId, info, user, now)],
                            ms + [NewMembership(newMembershipId, user, newId, Some(Admin), now)];
            var s' := session[CompanyIdKey := newId];
            Resolve(cs', ms', Some(user), path, s') == Resolution(s', Some(ms'[|ms|]), Continue)
  {
    var cs', ms' := cs[newId := NewCompany(newId, info, user, now)],
                    ms + [NewMembership(newMembershipId, user, newId, Some(Admin), now)];
    var s' := session[CompanyIdKey := newId];
    assert Usable(cs', user, ms'[|ms|]);
    assert PointsAtUsable(cs', ms', user, s');
    var r := Resolve(cs', ms', Some(user), path, s');
    var j :| 0 <= j < |ms'| && ms'[j] == r.bound.value;
  }

  /** Under the soft-delete rule, onboarding cannot loop: when the binding
      sends a user to /companies/new/, `create_company` does not send them
      back home, because they have no active membership. */
  lemma NoOnboardingLoop(cs: map<CompanyId, Company>, ms: seq<Membership>, ps: seq<Partner>, u: UserId,
                         path: string, session: map<string, string>)
    requires WellFormed(cs, ms, ps) && CascadeHolds(cs, ms)
    requires Resolve(cs, ms, Some(u), path, session).step == Respond(Redirect(CreateCompanyPath))
    ensures !HasActiveMembership(ms, u)
  {
  }

  /** Without the rule the loop happens: an inactive company whose member is
      still active (the store `SaveModel` leaves after unticking "Ativo?")
      makes the binding redirect to /companies/new/ and `create_company`
      redirect back home. */
  lemma OnboardingLoopWithoutCascade()
    ensures var c := Company("c", CompanyInfo("1", "Acme", "", "", "", "", "", "", "", "", "", "", "", "", ""),
                             false, None, None, 0, 5, Some(2));
            var cs, ms := map["c" := c], [Membership("m", 1, "c", Broker, true, 0)];
            && WellFormed(cs, ms, [])
            && !CascadeHolds(cs, ms)
            && Resolve(cs, ms, Some(1), HomePath, map[]).step == Respond(Redirect(CreateCompanyPath))
            && HasActiveMembership(ms, 1)
  {
    var c := Company("c", CompanyInfo("1", "Acme", "", "", "", "", "", "", "", "", "", "", "", "", ""),
                     false, None, None, 0, 5, Some(2));
    var cs, ms := map["c" := c], [Membership("m", 1, "c", Broker, true, 0)];
    assert !IsExempt(HomePath) by {
      forall i | 0 <= i < |ExemptPrefixes| ensures !(ExemptPrefixes[i] <= HomePath) {
        assert |ExemptPrefixes[i]| > 1;
      }
    }
    assert !HasUsable(cs, ms, 1);
    assert ms[0].user == 1 && ms[0].isActive;
  }
}
