# Multi-tenant access core of a Django company app

This project models how the app decides who may act in which company, and proves properties of that model in Dafny. The app is a Django site in which users belong to companies (tenants) through memberships that carry a role (admin, financial or broker). The modelled parts are:

- **Login gate** (`core/middleware.py`): anonymous requests may only reach the public prefixes. Everything else is redirected to the login page.
- **Tenant binding** (`companies/middleware.py`): for a logged-in request on a non-exempt path, the middleware finds the company the user acts in and keeps its id in the session. It then attaches the company and the membership to the request, or redirects the user to onboarding.
  - It first reuses the company named in the session.
  - If that fails, it drops the stale key and falls back to the usable membership with the least id.
- **Role gate** (`companies/decorators.py`): a view runs only for a bound membership whose role is on its allow-list. Otherwise the answer is HTTP 403.
- **Tenant lifecycle** (`companies/models.py`):
  - A soft delete marks the company inactive, records when and by whom, and deactivates all of its memberships.
  - Reactivation brings back only the company.
  - Memberships are unique per (user, company).
- **Operator console** (`companies/admin.py`): the active-member column, the save hook, the ban on hard deletes, and the four bulk actions.
- **Company pages** (`companies/views.py`):
  - Onboarding creates the company, the creator's admin membership, the partners and the session pointer, all or nothing.
  - The profile page and its edit form are open to the admin and financial roles only.
- **Users** (`accounts/models.py`, `accounts/forms.py`): user creation, the name helpers and the name cleaning of the creation form.

## How the model is built

- **Store.** The store is the class `Tenancy.Db`. Companies are a map from id to row, in `companies`. Memberships are in `memberships`, and partners in `partners`. Both are sequences in insertion order. The fallback query does not follow that order: `Membership` declares no `Meta.ordering`, so `.first()` orders by primary key, and `TenantBinding.Fallback` takes the usable membership with the least id.
- **Rows.** Rows are datatypes. A model instance and the row it was loaded from are the same value.
- **Store invariant.** `Db.Valid()` is the integrity of the store:
  - every company is stored under its own id;
  - `cnpj` is unique;
  - membership ids are distinct, and there is one membership per (user, company);
  - every membership and every partner points at a stored company (the user columns are not constrained, because the user table is a separate class).
- **Soft-delete rule.** The rule "an inactive company has only inactive memberships" is `Tenancy.CascadeHolds`. It is kept apart from `Valid()` because one operation of the console breaks it (see Findings). The operations that keep it say so in their contracts; `TenantAdmin.SaveModel` does not keep it, which `TenantAdmin.SaveModelBreaksCascade` shows on a concrete store.
- **Session and request.** These are classes (`TenantBinding.Session`, `TenantBinding.Request`) whose fields the middleware changes in place.
- **Middleware.** `TenantBinding.Resolve` specifies the middleware over a snapshot of the store. The imperative `TenantBinding.CompanyMiddleware` is proved to do exactly what `Resolve` says.
- **Bulk actions.** `DeactivateCompanies`, `ReactivateCompanies` and `ReactivateMembers` are loops over the selection, as in the source, and `DeactivateMembers` is one bulk update. Each is proved against specification functions (`SoftDeletedAll`, `ReactivatedMembers`, `CountIf`, …). Properties of those functions are proved as lemmas.
- **Inputs.** Clock values (`now`), fresh UUIDs, `normalize_email` and the outcome of form field validation are parameters. Password hashing is the symbolic `Hashed(raw)`.
- **Python strings.** `str.split()`, `' '.join`, `strip()` and `startswith` are modelled in `Text`, with Python's whitespace set.

## Model

| member | source | states |
|---|---|---|
| `LoginGate.LoginRequired` | core/middleware.py:13-32 | the request is redirected to the login page exactly when the user is anonymous and the path starts with none of the four public prefixes; an authenticated user always continues to the rest of the chain |
| `LoginGate.IsPublic` | core/middleware.py:22 | the path starts with one of the four public prefixes |
| `LoginGate.PublicPathPasses` | core/middleware.py:20-28 | a path that starts with a public prefix continues, logged in or not |
| `LoginGate.AdminWithoutSlashIsNotPublic` | core/middleware.py:13-22 | the match is a plain prefix test: "/admin" is not public and an anonymous request for it is redirected to login |
| `LoginGate.CompanyPagesNeedLogin` | core/middleware.py:13-28 | no path under /companies/ is public, so an anonymous request for a company page is redirected to login |
| `Accounts.UserTable.CreateUser` | accounts/models.py:6-13 | an empty e-mail is refused (ValueError) and adds no user; a normalized e-mail already taken is refused by the unique column; otherwise exactly one user is appended, with the normalized e-mail, the given or default fields and the password credential, and its id is returned |
| `Accounts.SuperuserDefaults` | accounts/models.py:16-17 | staff and superuser default to true, and a value the caller supplies is kept |
| `Accounts.CredentialFor` | accounts/models.py:11 | `set_password(password)`: no password gives an unusable credential, a raw password its hash |
| `Accounts.NewUser` | accounts/models.py:10-11 | `self.model(email=email, **extra_fields)`: the fields the caller did not supply take the model defaults (empty name and phone, not staff, not superuser, active) |
| `Accounts.UserTable.CreateSuperuser` | accounts/models.py:15-18 | same error cases as `create_user`; a non-empty, unused normalized e-mail always succeeds with the next id, and the table gains exactly the user `create_user` builds from the extra fields with staff and superuser defaulting to true |
| `Accounts.UserTable.SignupSave` | accounts/forms.py:10-21 | only `name` and `phone` of the saved user change, and no other user changes |
| `Accounts.UserTable.CreationFormSave` | accounts/forms.py:35-41 | the returned user has the form's fields and a credential from `password1`; it is stored only when `commit` holds |
| `Accounts.ShortName` | accounts/models.py:37-38 | for a non-empty name, the result is the first whitespace-separated word; a name of whitespace only is the IndexError case and gives no value; for an empty name the result is the e-mail text before the first '@' |
| `Accounts.FullName` | accounts/models.py:40-41 | the name when it is non-empty, otherwise the e-mail |
| `Accounts.UserStr` | accounts/models.py:43-44 | the e-mail |
| `Accounts.CleanName` | accounts/forms.py:43-55 | rejected with the length error exactly when the collapsed name has fewer than 3 characters; otherwise the result is at least 3 long, has no outer whitespace and single spaces between words, and has the same words as the input |
| `Accounts.CleanNameIdempotent` | accounts/forms.py:44-55 | cleaning a cleaned name returns it unchanged |
| `Text.Words` | accounts/forms.py:47 | every element of `split()` is a non-empty run free of whitespace |
| `Text.Join` | accounts/forms.py:47 | `' '.join(ws)`; `WordsOfJoin` and `JoinNormalized` state what it produces from words |
| `Text.Strip` | accounts/forms.py:44 | `strip()`: the result neither starts nor ends with whitespace |
| `Text.WordsAllSpace` | accounts/models.py:38 | a name of whitespace only has no words |
| `Text.NoWordsIsAllSpace` | accounts/models.py:38 | only a name of whitespace has no words, so that is exactly when `split()[0]` fails |
| `Text.FirstWordShape` | accounts/models.py:38 | the first word starts the left-stripped string and ends at whitespace or at its end |
| `Text.TrimLeft` | accounts/forms.py:44 | `lstrip()` returns a suffix of the input; what it drops is all whitespace and what it keeps does not start with whitespace |
| `Text.TrimRight` | accounts/forms.py:44 | `rstrip()` returns a prefix of the input; what it drops is all whitespace and what it keeps does not end with whitespace |
| `Text.BeforeFirst` | accounts/models.py:38 | `split('@')[0]` is the prefix before the first '@', or the whole text when there is none |
| `Text.WordsStrip` | accounts/forms.py:44-47 | `strip()` keeps the words |
| `Text.WordsOfJoin` | accounts/forms.py:47 | splitting the single-space join of a list of words gives the list back |
| `Text.JoinNormalized` | accounts/forms.py:47 | the join of words has no outer whitespace and separates words by one space |
| `Text.StripNormalized` | accounts/forms.py:44 | `strip()` leaves such a normalized string unchanged |
| `Tenancy.ParseRole` | companies/models.py:94-102 | a stored role value is read back only as the role that stores it |
| `Tenancy.RoleValueRoundTrip` | companies/models.py:94-102 | every role reads back from its stored value |
| `Tenancy.NewMembership` | companies/models.py:104-119 | a created membership is active, joined now, and has the broker role unless one is given |
| `Tenancy.CompanyStr` | companies/models.py:76-77 | the trade name when it is non-empty, otherwise the legal name |
| `Tenancy.ActiveCompanies` | companies/models.py:6-8 | `Company.active` holds exactly the active companies, with their rows |
| `Tenancy.OneMembershipPerPair` | companies/models.py:121-124 | in a well-formed store two memberships of the same user and company are the same row |
| `Tenancy.SoftDeleted` | companies/models.py:79-83 | the company is inactive, with deactivation time `now` and the acting user; no other field changes |
| `Tenancy.Reactivated` | companies/models.py:86-90 | the company is active with no deactivation record; no other field changes |
| `Tenancy.DeactivateMembershipsOf` | companies/models.py:84 | every membership of the given companies is inactive, all others are untouched, and only `is_active` changes |
| `Tenancy.SoftDeleteCascades` | companies/models.py:79-84 | after a soft delete no membership of the company is active, and the soft-delete rule still holds if it held before |
| `Tenancy.ReactivateKeepsCascade` | companies/models.py:86-90 | reactivation keeps the soft-delete rule |
| `Tenancy.ReactivateIdempotent` | companies/models.py:86-90 | reactivating twice equals reactivating once; an active company with no record is unchanged |
| `Tenancy.ActiveManagerTracksLifecycle` | companies/models.py:79-90 | a soft delete removes exactly that company from `Company.active`; reactivation adds exactly it |
| `Tenancy.Db.SoftDelete` | companies/models.py:79-84 | the company row becomes its soft-deleted form, its memberships are all deactivated, nothing else changes, and the store stays well formed |
| `Tenancy.Db.Reactivate` | companies/models.py:86-90 | the company row becomes its reactivated form and no membership or partner changes |
| `TenantBinding.FirstIndex` | companies/middleware.py:40-45 | the first position that matches (no earlier one does), or none when nothing matches |
| `TenantBinding.LeastIndex` | companies/middleware.py:53-57 | `.first()` without an ordering of the query: a matching position, and none only when nothing matches |
| `TenantBinding.LeastIndexIsLeast` | companies/middleware.py:53-57 | no matching position has a smaller key than the one `LeastIndex` returns |
| `TenantBinding.IsExempt` | companies/middleware.py:22-30 | the path starts with one of the five exempt prefixes |
| `TenantBinding.StoredId` | companies/middleware.py:34 | the stored `company_id` when the key is present, and the empty (falsy) string when it is absent |
| `TenantBinding.StoredLookup` | companies/middleware.py:40-45 | found only for a usable membership of the user in the stored company; none exactly when no such membership exists |
| `TenantBinding.Fallback` | companies/middleware.py:53-57 | a usable membership of the user whose id is least among the usable ones; none exactly when the user has no usable membership |
| `TenantBinding.Resolve` | companies/middleware.py:15-70 | anonymous users and exempt paths pass untouched; otherwise the request is bound exactly when the user has a usable membership (active, in an active company) and is redirected to /companies/new/ otherwise; a bound membership is usable and the session key then names its company; a valid session pointer is reused without changing the session; a stale pointer leaves either the fallback's id or no key; the fallback takes the usable membership with the least id; when nothing is bound the session changes only by deleting a stale key; no other session key changes |
| `TenantBinding.StoredBindingIsUnique` | companies/middleware.py:38-46 | with one membership per (user, company), the membership bound for a stored id is the user's only membership there |
| `TenantBinding.EmptyPointerIsKept` | companies/middleware.py:34-49 | an empty stored id is neither looked up nor deleted |
| `TenantBinding.CompanyMiddleware` | companies/middleware.py:15-70 | the session and the step equal what `Resolve` gives; when a membership is bound, the request gets it and its company's current row, with `request.company` matching `request.membership.company`; otherwise the request attributes are unchanged |
| `RoleGate.RoleRequired` | companies/decorators.py:5-24 | the view runs exactly when a membership is bound and its role is allowed, and its result is returned as it is; otherwise PermissionDenied |
| `RoleGate.Permits` | companies/decorators.py:14-17 | the two tests of the wrapper: a membership is bound and its role is on the allow-list |
| `RoleGate.MissingMembershipDenied` | companies/decorators.py:14-15 | no membership is always denied |
| `RoleGate.EmptyAllowListDeniesAll` | companies/decorators.py:17-20 | an empty allow-list denies every membership |
| `RoleGate.AllowListMonotone` | companies/decorators.py:17-20 | widening the allow-list never denies a call that was permitted |
| `TenantAdmin.CountIf` | companies/admin.py:55 | the count of matching rows is at most the number of rows |
| `TenantAdmin.CountIfZero` | companies/admin.py:55 | the count is zero exactly when no row matches |
| `TenantAdmin.MemberCount` | companies/admin.py:54-56 | the active-member column is zero exactly when the company has no active membership |
| `TenantAdmin.SoftDeleteZeroesMemberCount` | companies/admin.py:54-56 | after a soft delete the column shows zero |
| `TenantAdmin.HasDeletePermission` | companies/admin.py:62-64 | deletion is never permitted |
| `TenantAdmin.ActiveSelected` | companies/admin.py:69 | the selected companies that are active |
| `TenantAdmin.InactiveSelected` | companies/admin.py:77 | the selected companies that are inactive |
| `TenantAdmin.SoftDeletedAll` | companies/admin.py:69-70 | every stored company of the set is inactive with the deactivation time and actor recorded and its fields kept; every other company is unchanged, and no company is added or removed |
| `TenantAdmin.ReactivatedAll` | companies/admin.py:77-78 | every stored company of the set is active with no deactivation record and its fields kept; every other company is unchanged, and no company is added or removed |
| `TenantAdmin.DeactivateCompanies` | companies/admin.py:67-72 | exactly the selected active companies are soft-deleted by the acting user, their memberships are deactivated, the count is their number, partners are untouched, the store stays well formed and the soft-delete rule is kept; proved for every iteration order |
| `TenantAdmin.DeactivateCompaniesEffect` | companies/admin.py:67-72 | afterwards every selected company is inactive and no membership of a company the action deactivated is active |
| `TenantAdmin.ReactivateCompanies` | companies/admin.py:75-80 | exactly the selected inactive companies are reactivated, the count is their number, and no membership or partner changes |
| `TenantAdmin.DeactivatedMembers` | companies/admin.py:96 | after the bulk update a membership is active exactly when it was active and not selected; only `is_active` changes |
| `TenantAdmin.DeactivateMembers` | companies/admin.py:95-97 | the memberships become `DeactivatedMembers`, the count is the number of selected memberships that were active, and companies and partners are untouched |
| `TenantAdmin.DeactivateMembersKeepsCascade` | companies/admin.py:95-97 | deactivating memberships keeps the soft-delete rule |
| `TenantAdmin.ReactivatedMembers` | companies/admin.py:100-115 | afterwards a membership is active exactly when it was, or it was selected, inactive and in an active company; only `is_active` changes |
| `TenantAdmin.CountEligible` | companies/admin.py:102-107 | the count of reactivated memberships is zero exactly when no selected inactive membership has an active company |
| `TenantAdmin.ReactivateRows` | companies/admin.py:102-108 | the loop over the rows saves exactly `ReactivatedMembers` and counts each reactivation once |
| `TenantAdmin.ReactivateMembers` | companies/admin.py:100-115 | the memberships become `ReactivatedMembers`, the count is the number reactivated, companies and partners are untouched, and the soft-delete rule is kept |
| `TenantAdmin.ReactivateMembersKeepsCascade` | companies/admin.py:101-108 | the company guard means no member of an inactive company comes back, so the soft-delete rule is kept |
| `TenantAdmin.Saved` | companies/admin.py:58-60 | the saved row is the edited instance stamped with the acting user and the time, with status and deactivation record as the form left them; on an add the creation time is also now (`auto_now_add`), on a change it is kept |
| `TenantAdmin.SaveModel` | companies/admin.py:58-60 | the company row is replaced by the saved instance; memberships and partners do not change |
| `TenantAdmin.SaveModelBreaksCascade` | companies/admin.py:36-60 | a concrete store where saving the change form with "Ativo?" unticked turns the soft-delete rule from true to false and leaves the column at one |
| `TenantAdmin.CascadedMemberships` | companies/admin.py:36-39 | saving a company inactive leaves none of its memberships active; saving it active changes none |
| `TenantAdmin.CascadingSaveKeepsRule` | companies/admin.py:36-39 | a cascading save keeps the soft-delete rule, whatever the form did to the status |
| `TenantAdmin.SaveModelCascading` | companies/admin.py:36-60 | the corrected save writes the same row as `save_model` and also deactivates the company's memberships when it is saved inactive, keeping the soft-delete rule |
| `CompanyViews.NewCompany` | companies/views.py:23-25 | the new company is active, without deactivation record, created and updated now, and updated by its creator |
| `CompanyViews.HasActiveMembership` | companies/views.py:13 | the user has a membership whose own flag is active; the company's flag is not looked at |
| `CompanyViews.FormValid` | companies/views.py:20 | `form.is_valid()` (also views.py:68): the fields validate and no company other than the edited instance holds the `cnpj` |
| `CompanyViews.Linked` | companies/views.py:36-37 | every submitted partner becomes a row of the given company, in order |
| `CompanyViews.ReplacePartners` | companies/views.py:73 | the partner table after `formset.save()`: the other companies' partners, then the submitted ones linked to the company; its effect is `ReplacePartnersEffect` |
| `CompanyViews.ReplacePartnersEffect` | companies/views.py:66-73 | after the edit formset is saved, the company has exactly the submitted partners and every other company keeps its partners |
| `CompanyViews.CreateCompany` | companies/views.py:9-52 | a user with an active membership is sent home and nothing changes; anything but a valid POST renders the page and changes nothing; a valid POST adds exactly the new company (updated by the user), one active admin membership of the user in it, the submitted partners linked to it, and the session pointer to it, then goes home; the store stays well formed and the soft-delete rule is kept |
| `CompanyViews.CreatedCompanyIsBound` | companies/views.py:39-41 | on the next request the binding reuses the new session pointer and binds the creator's admin membership of the new company |
| `CompanyViews.CompanyDetail` | companies/views.py:54-57 | the profile page is rendered exactly for the admin and financial roles, otherwise 403 |
| `CompanyViews.BrokerDenied` | companies/views.py:55-57 | a broker never sees the profile page |
| `CompanyViews.CompanyUpdate` | companies/views.py:59-84 | outside the admin and financial roles the answer is 403 and nothing changes; anything but a valid POST renders the form and changes nothing; a valid POST replaces the bound company's edited fields, stamps user and time, replaces its partners with the submitted ones, leaves memberships alone and goes to the profile page |
| `CompanyViews.NoOnboardingLoop` | companies/views.py:13-14 | under the soft-delete rule, a user whom the binding sends to onboarding has no active membership, so onboarding does not send them back home |
| `CompanyViews.OnboardingLoopWithoutCascade` | companies/views.py:13-14 | a concrete well-formed store without the rule, in which the binding redirects to onboarding while onboarding redirects home |

## Left out

- Messages and HTTP plumbing. The texts of `messages` and `message_user` are not modelled, including the per-member warning of `reactivate_members`. Only the template name of a rendered page is modelled, not the form or company handed to it. `redirect` is the target path.
- `login_required` on the three views. The views take the logged-in user as a parameter. Anonymous access to /companies/ is handled by the login gate (`LoginGate.CompanyPagesNeedLogin`).
- TenantBinding.Resolve: a session value that is not a UUID makes the source's lookup raise ValidationError, which is a server error. The model treats it as a failed lookup.
- TenantBinding.Resolve: the source's `.get` would raise MultipleObjectsReturned for two matching memberships. The model takes the first match. `StoredBindingIsUnique` shows the first match is the only one when memberships are unique per (user, company).
- `normalize_email`, password hashing and the sign-up package's own save are not modelled. They are a function parameter, the value `Hashed(raw)`, and an already stored user id, respectively.
- Form field validation is an input flag. The ModelForm unique check on `cnpj` is modelled explicitly, and so is the unique e-mail check, as a precondition of `CreationFormSave`.
- CompanyViews.CompanyUpdate: the edit formset is modelled by the partner list it leaves. A company's edited partners move to the end of the partner table, and partner row ids are not modelled.
- CompanyViews.CompanyUpdate: its precondition says the request's company is the row the tenant binding loaded for the bound membership. That is what `CompanyMiddleware` guarantees within a request.
- Any HTTP method other than POST behaves as GET (`Get`).
- The company list ordering (`trade_name`, `legal_name`) only affects listings. The bulk actions are proved for any iteration order.
- The admin change form's inline membership and partner editors are not modelled; `SaveModel` covers the company row only.
- Rollback inside `transaction.atomic`, concurrent requests and the session's last-write-wins race are out of the model. The atomic blocks are single state transitions.
- Clock values and fresh UUIDs are parameters. `uuid4` freshness is a precondition.
- TenantAdmin.DeactivateCompanies: every company of one action is stamped with the same `now`. The source reads `timezone.now()` afresh in each `soft_delete`, so its stamps may differ by the time the loop takes.
- TenantBinding.Fallback: membership ids are compared as strings, character by character (`Text.LexLe`). This is the order the database sorts UUID keys in when they are all stored in one textual form, which the model takes for granted.

## Findings

| source | as written | input that shows it | evidently intended | confidence | as-written member | corrected member |
|---|---|---|---|---|---|---|
| companies/admin.py:58-60 | `save_model` stamps `updated_by` and saves the company as the change form left it, so unticking "Ativo?" leaves every membership of the company active, although the Status fieldset (companies/admin.py:36-39) says deactivation also deactivates the members | one active company "c" with one active membership; save its change form with "Ativo?" unticked: the company is inactive, its membership is still active and `member_count` shows 1. For that member, the binding redirects to /companies/new/, and `create_company` redirects home because the membership is active: a redirect loop (`OnboardingLoopWithoutCascade`) | saving a company as inactive also deactivates its memberships, keeping the soft-delete rule under which the loop cannot happen (`NoOnboardingLoop`) | not executed | `TenantAdmin.SaveModelBreaksCascade` | `TenantAdmin.SaveModelCascading` |
