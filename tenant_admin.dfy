/** The operator console of companies/admin.py: the active-member column,
    the save hook, the hard-delete ban and the four bulk actions. */
module TenantAdmin {
  import opened Wrappers
  import opened Tenancy

  /** `len([x for x in s if p(x)])`, the `.count()` of a filtered query. */
  function CountIf<T>(s: seq<T>, p: T -> bool): (n: nat)
    ensures n <= |s|
  {
    if s == [] then 0 else CountIf(s[..|s| - 1], p) + (if p(s[|s| - 1]) then 1 else 0)
  }

  /** The count is zero exactly when nothing matches. */
  lemma {:induction false} CountIfZero<T>(s: seq<T>, p: T -> bool)
    ensures CountIf(s, p) == 0 <==> forall i :: 0 <= i < |s| ==> !p(s[i])
    decreases |s|
  {
    if s != [] {
      var init := s[..|s| - 1];
      CountIfZero(init, p);
      assert forall i :: 0 <= i < |init| ==> init[i] == s[i];
    }
  }

  /** A prefix one longer counts its last element once more, if it matches. */
  lemma CountIfStep<T>(s: seq<T>, p: T -> bool, i: nat)
    requires i < |s|
    ensures CountIf(s[..i + 1], p) == CountIf(s[..i], p) + (if p(s[i]) then 1 else 0)
  {
    assert s[..i + 1][..i] == s[..i];
  }

  /** `CompanyAdmin.member_count`: the company's active memberships. */
  function MemberCount(ms: seq<Membership>, cid: CompanyId): (n: nat)
    ensures n <= |ms|
    ensures n == 0 <==> forall i :: 0 <= i < |ms| ==> !(ms[i].company == cid && ms[i].isActive)
  {
    CountIfZero(ms, (m: Membership) => m.company == cid && m.isActive);
    CountIf(ms, (m: Membership) => m.company == cid && m.isActive)
  }

  /** After `soft_delete` the column shows zero. */
  lemma SoftDeleteZeroesMemberCount(ms: seq<Membership>, cid: CompanyId)
    ensures MemberCount(DeactivateMembershipsOf(ms, {cid}), cid) == 0
  {
    var ms' := DeactivateMembershipsOf(ms, {cid});
    forall i | 0 <= i < |ms'| ensures !(ms'[i].company == cid && ms'[i].isActive) {
      assert ms'[i].(isActive := ms[i].isActive) == ms[i];
    }
  }

  /** `CompanyAdmin.has_delete_permission`: companies are never hard-deleted
      from the console (the `Db` model has no delete operation either). */
  function HasDeletePermission(): (allowed: bool)
    ensures !allowed
  {
    false
  }

  // ---------------------------------------------------------------------
  // Specification of the bulk actions
  // ---------------------------------------------------------------------

  /** `queryset.filter(is_active=True)` over the selected companies. */
  function ActiveSelected(cs: map<CompanyId, Company>, selected: set<CompanyId>): (s: set<CompanyId>)
    ensures forall k :: k in s <==> k in selected && k in cs && cs[k].isActive
  {
    set k | k in selected && k in cs && cs[k].isActive
  }

  /** `queryset.filter(is_active=False)` over the selected companies. */
  function InactiveSelected(cs: map<CompanyId, Company>, selected: set<CompanyId>): (s: set<CompanyId>)
    ensures forall k :: k in s <==> k in selected && k in cs && !cs[k].isActive
  {
    set k | k in selected && k in cs && !cs[k].isActive
  }

  /** Every company of `s` soft-deleted, the others as they were. */
  function SoftDeletedAll(cs: map<CompanyId, Company>, s: set<CompanyId>, actor: Option<UserId>, now: Time)
    : (r: map<CompanyId, Company>)
    ensures r.Keys == cs.Keys
    ensures forall k :: k in cs && k in s ==>
              !r[k].isActive && r[k].deactivatedAt == Some(now) && r[k].deactivatedBy == actor && r[k].info == cs[k].info
    ensures forall k :: k in cs && k !in s ==> r[k] == cs[k]
  {
    map k | k in cs :: if k in s then SoftDeleted(cs[k], actor, now) else cs[k]
  }

  /** Every company of `s` reactivated, the others as they were. */
  function ReactivatedAll(cs: map<CompanyId, Company>, s: set<CompanyId>): (r: map<CompanyId, Company>)
    ensures r.Keys == cs.Keys
    ensures forall k :: k in cs && k in s ==>
              r[k].isActive && r[k].deactivatedAt.None? && r[k].deactivatedBy.None? && r[k].info == cs[k].info
    ensures forall k :: k in cs && k !in s ==> r[k] == cs[k]
  {
    map k | k in cs :: if k in s then Reactivated(cs[k]) else cs[k]
  }

  lemma SoftDeletedAllStep(cs: map<CompanyId, Company>, done: set<CompanyId>, c: CompanyId, actor: Option<UserId>, now: Time)
    requires c in cs && c !in done
    ensures var d := SoftDeletedAll(cs, done, actor, now);
            d[c := SoftDeleted(d[c], actor, now)] == SoftDeletedAll(cs, done + {c}, actor, now)
  {
  }

  lemma ReactivatedAllStep(cs: map<CompanyId, Company>, done: set<CompanyId>, c: CompanyId)
    requires c in cs && c !in done
    ensures var d := ReactivatedAll(cs, done); d[c := Reactivated(d[c])] == ReactivatedAll(cs, done + {c})
  {
  }

  /** Taking one element out of a set lowers its size by one. */
  lemma RemoveOne<T>(s: set<T>, x: T)
    requires x in s
    ensures |s - {x}| == |s| - 1
  {
    assert s == (s - {x}) + {x};
  }

  lemma DeactivateMembershipsOfStep(ms: seq<Membership>, done: set<CompanyId>, c: CompanyId)
    ensures DeactivateMembershipsOf(DeactivateMembershipsOf(ms, done), {c}) == DeactivateMembershipsOf(ms, done + {c})
  {
  }

  /** After `deactivate_companies`, every selected company is inactive and no
      membership of a selected company is active. */
  lemma DeactivateCompaniesEffect(cs: map<CompanyId, Company>, ms: seq<Membership>, selected: set<CompanyId>,
                                  actor: Option<UserId>, now: Time)
    ensures var s := ActiveSelected(cs, selected);
            var cs', ms' := SoftDeletedAll(cs, s, actor, now), DeactivateMembershipsOf(ms, s);
            && (forall k :: k in selected && k in cs' ==> !cs'[k].isActive)
            && (forall i :: 0 <= i < |ms'| && ms[i].company in selected && ms[i].company in cs && cs[ms[i].company].isActive
                  ==> !ms'[i].isActive)
  {
  }

  /** A selected membership comes back only if its company is active. */
  predicate ReactivationEligible(cs: map<CompanyId, Company>, selected: set<MembershipId>, m: Membership) {
    m.id in selected && !m.isActive && m.company in cs && cs[m.company].isActive
  }

  /** How many memberships `reactivate_members` brings back. */
  function CountEligible(ms: seq<Membership>, cs: map<CompanyId, Company>, selected: set<MembershipId>): (n: nat)
    ensures n == 0 <==> forall i :: 0 <= i < |ms| ==> !ReactivationEligible(cs, selected, ms[i])
  {
    CountIfZero(ms, (m: Membership) => ReactivationEligible(cs, selected, m));
    CountIf(ms, (m: Membership) => ReactivationEligible(cs, selected, m))
  }

  /** The memberships after `reactivate_members`. */
  function ReactivatedMembers(ms: seq<Membership>, cs: map<CompanyId, Company>, selected: set<MembershipId>)
    : (r: seq<Membership>)
    ensures |r| == |ms|
    ensures forall i :: 0 <= i < |ms| ==> SameExceptActive(r[i], ms[i])
    ensures forall i :: 0 <= i < |ms| ==> (r[i].isActive <==> ms[i].isActive || ReactivationEligible(cs, selected, ms[i]))
  {
    seq(|ms|, i requires 0 <= i < |ms| =>
      if ReactivationEligible(cs, selected, ms[i]) then ms[i].(isActive := true) else ms[i])
  }

  /** `reactivate_members` keeps the soft-delete rule: it never brings back a
      member of an inactive company. */
  lemma ReactivateMembersKeepsCascade(cs: map<CompanyId, Company>, ms: seq<Membership>, selected: set<MembershipId>)
    requires CascadeHolds(cs, ms)
    ensures CascadeHolds(cs, ReactivatedMembers(ms, cs, selected))
  {
    var ms' := ReactivatedMembers(ms, cs, selected);
    forall i | 0 <= i < |ms'| && ms'[i].company in cs && !cs[ms'[i].company].isActive
      ensures !ms'[i].isActive
    {
      assert ms'[i].(isActive := ms[i].isActive) == ms[i];
    }
  }

  /** `queryset.filter(is_active=True).update(is_active=False)` over the
      selected memberships. */
  function DeactivatedMembers(ms: seq<Membership>, selected: set<MembershipId>): (r: seq<Membership>)
    ensures |r| == |ms|
    ensures forall i :: 0 <= i < |ms| ==> SameExceptActive(r[i], ms[i])
    ensures forall i :: 0 <= i < |ms| ==> (r[i].isActive <==> ms[i].isActive && ms[i].id !in selected)
  {
    seq(|ms|, i requires 0 <= i < |ms| =>
      if ms[i].id in selected && ms[i].isActive then ms[i].(isActive := false) else ms[i])
  }

  /** Deactivating memberships keeps the soft-delete rule. */
  lemma DeactivateMembersKeepsCascade(cs: map<CompanyId, Company>, ms: seq<Membership>, selected: set<MembershipId>)
    requires CascadeHolds(cs, ms)
    ensures CascadeHolds(cs, DeactivatedMembers(ms, selected))
  {
    var ms' := DeactivatedMembers(ms, selected);
    forall i | 0 <= i < |ms'| && ms'[i].company in cs && !cs[ms'[i].company].isActive
      ensures !ms'[i].isActive
    {
      assert ms'[i].(isActive := ms[i].isActive) == ms[i];
    }
  }

  /** The row `save_model` writes: the edited instance, stamped with the
      acting user and the time (and its creation time on an add). */
  function Saved(obj: Company, actor: UserId, change: bool, now: Time): (c: Company)
    ensures c.updatedBy == Some(actor) && c.updatedAt == now
    ensures c.id == obj.id && c.info == obj.info && c.isActive == obj.isActive
    ensures c.deactivatedAt == obj.deactivatedAt && c.deactivatedBy == obj.deactivatedBy
    ensures c.createdAt == if change then obj.createdAt else now
  {
    obj.(updatedBy := Some(actor), updatedAt := now, createdAt := if change then obj.createdAt else now)
  }

  /** Saving a company through the change form with "Ativo?" unticked leaves
      its members active: the soft-delete rule held before and fails after. */
  lemma SaveModelBreaksCascade()
    ensures var c := Company("c", CompanyInfo("1", "Acme", "", "", "", "", "", "", "", "", "", "", "", "", ""),
                             true, None, None, 0, 0, None);
            var cs, ms := map["c" := c], [Membership("m", 1, "c", Broker, true, 0)];
            var cs' := cs["c" := Saved(c.(isActive := false), 2, true, 5)];
            CascadeHolds(cs, ms) && !CascadeHolds(cs', ms) && MemberCount(ms, "c") == 1
  {
    var c := Company("c", CompanyInfo("1", "Acme", "", "", "", "", "", "", "", "", "", "", "", "", ""),
                     true, None, None, 0, 0, None);
    var ms := [Membership("m", 1, "c", Broker, true, 0)];
    var cs' := map["c" := c]["c" := Saved(c.(isActive := false), 2, true, 5)];
    assert ms[0].company in cs' && !cs'[ms[0].company].isActive && ms[0].isActive;
    assert MemberCount(ms, "c") != 0;
  }

  // ---------------------------------------------------------------------
  // The actions on the store
  // ---------------------------------------------------------------------

  /** The admin form is valid: its `cnpj` is not another company's. */
  ghost predicate CnpjFree(cs: map<CompanyId, Company>, obj: Company) {
    forall k :: k in cs && k != obj.id ==> cs[k].info.cnpj != obj.info.cnpj
  }

  /** `CompanyAdmin.save_model`: stamp `updated_by` and save the row as the
      form left it. Memberships are not touched, even when the form unticks
      "Ativo?". */
  method SaveModel(db: Db, actor: UserId, obj: Company, change: bool, now: Time)
    requires db.Valid()
    requires change <==> obj.id in db.companies
    requires CnpjFree(db.companies, obj)
    modifies db
    ensures db.Valid()
    ensures db.companies == old(db.companies)[obj.id := Saved(obj, actor, change, now)]
    ensures db.memberships == old(db.memberships) && db.partners == old(db.partners)
  {
    var c := obj.(updatedBy := Some(actor));
    c := c.(updatedAt := now);
    if !change {
      c := c.(createdAt := now);
    }
    db.companies := db.companies[obj.id := c];
  }

  /** The memberships a save of `c` should leave: all of the company's
      memberships go inactive when the company is saved inactive. */
  function CascadedMemberships(ms: seq<Membership>, c: Company): (r: seq<Membership>)
    ensures |r| == |ms| && forall i :: 0 <= i < |ms| ==> SameExceptActive(r[i], ms[i])
    ensures c.isActive ==> r == ms
    ensures !c.isActive ==> forall i :: 0 <= i < |r| && r[i].company == c.id ==> !r[i].isActive
  {
    if c.isActive then ms
    else
      SoftDeleteCascadesFor(ms, c.id);
      DeactivateMembershipsOf(ms, {c.id})
  }

  lemma SoftDeleteCascadesFor(ms: seq<Membership>, cid: CompanyId)
    ensures var r := DeactivateMembershipsOf(ms, {cid});
            forall i :: 0 <= i < |r| && r[i].company == cid ==> !r[i].isActive
  {
    var r := DeactivateMembershipsOf(ms, {cid});
    forall i | 0 <= i < |r| && r[i].company == cid ensures !r[i].isActive {
      assert r[i].(isActive := ms[i].isActive) == ms[i];
    }
  }

  /** A save that cascades keeps the soft-delete rule, whatever the form
      did to "Ativo?". */
  lemma CascadingSaveKeepsRule(cs: map<CompanyId, Company>, ms: seq<Membership>, c: Company)
    requires CascadeHolds(cs, ms)
    ensures CascadeHolds(cs[c.id := c], CascadedMemberships(ms, c))
  {
    var cs', ms' := cs[c.id := c], CascadedMemberships(ms, c);
    forall i | 0 <= i < |ms'| && ms'[i].company in cs' && !cs'[ms'[i].company].isActive
      ensures !ms'[i].isActive
    {
      assert ms'[i].(isActive := ms[i].isActive) == ms[i];
    }
  }

  /** `save_model` as the Status fieldset describes it: unticking "Ativo?"
      also deactivates every membership of the company. */
  method SaveModelCascading(db: Db, actor: UserId, obj: Company, change: bool, now: Time)
    requires db.Valid()
    requires change <==> obj.id in db.companies
    requires CnpjFree(db.companies, obj)
    modifies db
    ensures db.Valid()
    ensures db.companies == old(db.companies)[obj.id := Saved(obj, actor, change, now)]
    ensures db.memberships == CascadedMemberships(old(db.memberships), obj)
    ensures db.partners == old(db.partners)
    ensures CascadeHolds(old(db.companies), old(db.memberships)) ==> CascadeHolds(db.companies, db.memberships)
  {
    if CascadeHolds(db.companies, db.memberships) {
      CascadingSaveKeepsRule(db.companies, db.memberships, Saved(obj, actor, change, now));
    }
    SaveModel(db, actor, obj, change, now);
    if !obj.isActive {
      ActiveFlagsKeepWellFormed(db.companies, db.memberships, CascadedMemberships(db.memberships, obj), db.partners);
      db.memberships := DeactivateMembershipsOf(db.memberships, {obj.id});
    }
  }

  /** `CompanyAdmin.deactivate_companies`: `soft_delete` each selected
      company that is active; the count is how many that was. */
  method DeactivateCompanies(db: Db, actor: UserId, selected: set<CompanyId>, now: Time) returns (count: nat)
    requires db.Valid()
    modifies db
    ensures db.Valid()
    ensures var s := ActiveSelected(old(db.companies), selected);
            && count == |s|
            && db.companies == SoftDeletedAll(old(db.companies), s, Some(actor), now)
            && db.memberships == DeactivateMembershipsOf(old(db.memberships), s)
    ensures db.partners == old(db.partners)
    ensures CascadeHolds(old(db.companies), old(db.memberships)) ==> CascadeHolds(db.companies, db.memberships)
  {
    ghost var cs0, ms0, ps0 := db.companies, db.memberships, db.partners;
    ghost var cascade0 := CascadeHolds(cs0, ms0);
    var todo := ActiveSelected(db.companies, selected);
    var remaining := todo;
    ghost var done: set<CompanyId> := {};
    count := 0;
    while remaining != {}
      invariant db.Valid()
      invariant forall k :: k in todo <==> k in done || k in remaining
      invariant forall k :: k in done ==> k !in remaining
      invariant count + |remaining| == |todo|
      invariant db.companies == SoftDeletedAll(cs0, done, Some(actor), now)
      invariant db.memberships == DeactivateMembershipsOf(ms0, done)
      invariant db.partners == ps0
      invariant cascade0 ==> CascadeHolds(db.companies, db.memberships)
      decreases |remaining|
    {
      var c :| c in remaining;
      SoftDeletedAllStep(cs0, done, c, Some(actor), now);
      DeactivateMembershipsOfStep(ms0, done, c);
      db.SoftDelete(c, Some(actor), now);
      done := done + {c};
      RemoveOne(remaining, c);
      remaining := remaining - {c};
      count := count + 1;
    }
    assert done == todo;
  }

  /** `CompanyAdmin.reactivate_companies`: `reactivate` each selected company
      that is inactive; memberships stay as they are. */
  method ReactivateCompanies(db: Db, selected: set<CompanyId>) returns (count: nat)
    requires db.Valid()
    modifies db
    ensures db.Valid()
    ensures var s := InactiveSelected(old(db.companies), selected);
            count == |s| && db.companies == ReactivatedAll(old(db.companies), s)
    ensures db.memberships == old(db.memberships) && db.partners == old(db.partners)
    ensures CascadeHolds(old(db.companies), old(db.memberships)) ==> CascadeHolds(db.companies, db.memberships)
  {
    ghost var cs0, ms0, ps0 := db.companies, db.memberships, db.partners;
    ghost var cascade0 := CascadeHolds(cs0, ms0);
    var todo := InactiveSelected(db.companies, selected);
    var remaining := todo;
    ghost var done: set<CompanyId> := {};
    count := 0;
    while remaining != {}
      invariant db.Valid()
      invariant forall k :: k in todo <==> k in done || k in remaining
      invariant forall k :: k in done ==> k !in remaining
      invariant count + |remaining| == |todo|
      invariant db.companies == ReactivatedAll(cs0, done)
      invariant db.memberships == ms0 && db.partners == ps0
      invariant cascade0 ==> CascadeHolds(db.companies, db.memberships)
      decreases |remaining|
    {
      var c :| c in remaining;
      ReactivatedAllStep(cs0, done, c);
      db.Reactivate(c);
      done := done + {c};
      RemoveOne(remaining, c);
      remaining := remaining - {c};
      count := count + 1;
    }
    assert done == todo;
  }

  /** `MembershipAdmin.deactivate_members`: one bulk update; the count is the
      number of selected memberships that were active. */
  method DeactivateMembers(db: Db, selected: set<MembershipId>) returns (count: nat)
    requires db.Valid()
    modifies db
    ensures db.Valid()
    ensures count == CountIf(old(db.memberships), (m: Membership) => m.id in selected && m.isActive)
    ensures db.memberships == DeactivatedMembers(old(db.memberships), selected)
    ensures db.companies == old(db.companies) && db.partners == old(db.partners)
    ensures CascadeHolds(old(db.companies), old(db.memberships)) ==> CascadeHolds(db.companies, db.memberships)
  {
    count := CountIf(db.memberships, (m: Membership) => m.id in selected && m.isActive);
    if CascadeHolds(db.companies, db.memberships) {
      DeactivateMembersKeepsCascade(db.companies, db.memberships, selected);
    }
    ActiveFlagsKeepWellFormed(db.companies, db.memberships, DeactivatedMembers(db.memberships, selected), db.partners);
    db.memberships := DeactivatedMembers(db.memberships, selected);
  }

  /** The loop of `reactivate_members` over the rows: which rows it saves
      reactivated, and how many. */
  method ReactivateRows(ms: seq<Membership>, cs: map<CompanyId, Company>, selected: set<MembershipId>)
    returns (rows: seq<Membership>, count: nat)
    requires forall i :: 0 <= i < |ms| ==> ms[i].company in cs
    ensures rows == ReactivatedMembers(ms, cs, selected)
    ensures count == CountEligible(ms, cs, selected)
  {
    ghost var target := ReactivatedMembers(ms, cs, selected);
    ghost var p := (m: Membership) => ReactivationEligible(cs, selected, m);
    rows := ms;
    count := 0;
    var i := 0;
    while i < |rows|
      invariant |rows| == |ms| && 0 <= i <= |ms|
      invariant forall j :: 0 <= j < i ==> rows[j] == target[j]
      invariant forall j :: i <= j < |ms| ==> rows[j] == ms[j]
      invariant count == CountIf(ms[..i], p)
    {
      var m := rows[i];
      CountIfStep(ms, p, i);
      if m.id in selected && !m.isActive {
        if cs[m.company].isActive {
          rows := rows[i := m.(isActive := true)];
          count := count + 1;
        }
      }
      i := i + 1;
    }
    assert ms[..|ms|] == ms;
    assert rows == target;
  }

  /** `MembershipAdmin.reactivate_members`: each selected inactive membership
      is reactivated when its company is active and skipped otherwise; the
      count is the number reactivated. */
  method ReactivateMembers(db: Db, selected: set<MembershipId>) returns (count: nat)
    requires db.Valid()
    modifies db
    ensures db.Valid()
    ensures count == CountEligible(old(db.memberships), db.companies, selected)
    ensures db.memberships == ReactivatedMembers(old(db.memberships), db.companies, selected)
    ensures db.companies == old(db.companies) && db.partners == old(db.partners)
    ensures CascadeHolds(old(db.companies), old(db.memberships)) ==> CascadeHolds(db.companies, db.memberships)
  {
    var rows;
    rows, count := ReactivateRows(db.memberships, db.companies, selected);
    ActiveFlagsKeepWellFormed(db.companies, db.memberships, rows, db.partners);
    if CascadeHolds(db.companies, db.memberships) {
      ReactivateMembersKeepsCascade(db.companies, db.memberships, selected);
    }
    db.memberships := rows;
  }
}
