/** User accounts (accounts/models.py) and the user forms that touch them
    (accounts/forms.py). Users are identified by e-mail; the user table is
    append-only in this core. */
module Accounts {
  import opened Wrappers
  import opened Text

  /** The auto-increment primary key: the user at index `i` of the table has id `i + 1`. */
  type UserId = nat

  /** The stored credential. Hashing is not modelled: `Hashed(raw)` stands for
      the hash `set_password(raw)` stores; `set_password(None)` stores an
      unusable password. */
  datatype Credential = Unusable | Hashed(raw: string)

  datatype User = User(
    email: string,
    name: string,
    phone: string,
    password: Credential,
    isStaff: bool,
    isSuperuser: bool,
    isActive: bool)

  /** The keyword arguments `create_user` accepts; `None` means "not supplied". */
  datatype ExtraFields = ExtraFields(
    name: Option<string>,
    phone: Option<string>,
    isStaff: Option<bool>,
    isSuperuser: Option<bool>)

  datatype AccountError =
    | EmailRequired   // create_user: ValueError for an empty e-mail
    | EmailTaken      // the unique e-mail column rejects the insert
    | NameTooShort    // clean_name: ValidationError

  /** The minimum length `clean_name` accepts. */
  const MinNameLength: nat := 3

  function CredentialFor(password: Option<string>): Credential {
    match password
    case None => Unusable
    case Some(raw) => Hashed(raw)
  }

  /** The user `create_user` builds from an already normalized e-mail, using the
      model's defaults for every field the caller did not supply. */
  function NewUser(email: string, password: Option<string>, extra: ExtraFields): User {
    User(email, extra.name.GetOr(""), extra.phone.GetOr(""), CredentialFor(password),
         extra.isStaff.GetOr(false), extra.isSuperuser.GetOr(false), true)
  }

  /** `setdefault('is_staff', True)` and `setdefault('is_superuser', True)`. */
  function SuperuserDefaults(extra: ExtraFields): (e: ExtraFields)
    ensures e.isStaff == Some(extra.isStaff.GetOr(true))
    ensures e.isSuperuser == Some(extra.isSuperuser.GetOr(true))
    ensures e.name == extra.name && e.phone == extra.phone
  {
    extra.(isStaff := Some(extra.isStaff.GetOr(true)), isSuperuser := Some(extra.isSuperuser.GetOr(true)))
  }

  predicate EmailInUse(users: seq<User>, email: string) {
    exists i :: 0 <= i < |users| && users[i].email == email
  }

  /** The unique constraint on the e-mail column. */
  ghost predicate EmailsDistinct(users: seq<User>) {
    forall i, j :: 0 <= i < j < |users| ==> users[i].email != users[j].email
  }

  /** The user table. */
  class UserTable {
    var users: seq<User>

    ghost predicate Valid()
      reads this
    {
      EmailsDistinct(users)
    }

    constructor ()
      ensures Valid() && users == []
    {
      users := [];
    }

    /** `CustomUserManager.create_user`. E-mail normalization belongs to the
        framework and is taken as the parameter `normalize`. */
    method CreateUser(email: string, password: Option<string>, extra: ExtraFields, normalize: string -> string)
      returns (r: Result<UserId, AccountError>)
      requires Valid()
      modifies this
      ensures Valid()
      ensures email == "" ==> r == Err(EmailRequired) && users == old(users)
      ensures email != "" && EmailInUse(old(users), normalize(email)) ==>
                r == Err(EmailTaken) && users == old(users)
      ensures email != "" && !EmailInUse(old(users), normalize(email)) ==>
                r == Ok(|old(users)| + 1)
                && users == old(users) + [NewUser(normalize(email), password, extra)]
    {
      if email == "" {
        return Err(EmailRequired);
      }
      var normalized := normalize(email);
      if EmailInUse(users, normalized) {
        return Err(EmailTaken);
      }
      users := users + [NewUser(normalized, password, extra)];
      r := Ok(|users|);
    }

    /** `CustomUserManager.create_superuser`: staff and superuser unless the
        caller says otherwise, then `create_user`. */
    method CreateSuperuser(email: string, password: Option<string>, extra: ExtraFields, normalize: string -> string)
      returns (r: Result<UserId, AccountError>)
      requires Valid()
      modifies this
      ensures Valid()
      ensures email == "" ==> r == Err(EmailRequired) && users == old(users)
      ensures email != "" && EmailInUse(old(users), normalize(email)) ==>
                r == Err(EmailTaken) && users == old(users)
      ensures email != "" && !EmailInUse(old(users), normalize(email)) ==>
                r == Ok(|old(users)| + 1)
                && users == old(users) + [NewUser(normalize(email), password, SuperuserDefaults(extra))]
      ensures r.Ok? ==>
                && r.value == |users| && |users| == |old(users)| + 1
                && users[..|old(users)|] == old(users)
                && users[r.value - 1].email == normalize(email)
                && users[r.value - 1].isStaff == extra.isStaff.GetOr(true)
                && users[r.value - 1].isSuperuser == extra.isSuperuser.GetOr(true)
    {
      r := CreateUser(email, password, SuperuserDefaults(extra), normalize);
    }

    /** `CustomSignupForm.save`: the sign-up package has saved user `id`; this
        sets `name` and `phone` from the cleaned data and saves again. */
    method SignupSave(id: UserId, name: string, phone: string)
      requires Valid()
      requires 1 <= id <= |users|
      modifies this
      ensures Valid()
      ensures users == old(users)[id - 1 := old(users)[id - 1].(name := name, phone := phone)]
    {
      var u := users[id - 1];
      u := u.(name := name);
      u := u.(phone := phone);
      users := users[id - 1 := u];
    }

    /** `CustomUserCreationForm.save`: the user built from the form's fields,
        with `password1` set; it reaches the table only when `commit` holds.
        The form has validated the unique e-mail before `save` is called. */
    method CreationFormSave(email: string, name: string, phone: string, password1: string, commit: bool)
      returns (u: User)
      requires Valid()
      requires !EmailInUse(users, email)
      modifies this
      ensures Valid()
      ensures u == User(email, name, phone, Hashed(password1), false, false, true)
      ensures users == if commit then old(users) + [u] else old(users)
    {
      u := NewUser(email, None, ExtraFields(Some(name), Some(phone), None, None));
      u := u.(password := Hashed(password1));
      if commit {
        users := users + [u];
      }
    }
  }

  /** `CustomUser.get_short_name`: the first word of the name, or the e-mail's
      local part when the name is empty. A name made only of whitespace makes
      `split()[0]` raise IndexError, modelled as `None`. */
  function ShortName(u: User): (r: Option<string>)
    ensures u.name != "" ==> (r.None? <==> AllSpace(u.name))
    ensures u.name != "" && r.Some? ==>
              var t := TrimLeft(u.name);
              IsWord(r.value) && r.value <= t && (|r.value| == |t| || IsSpace(t[|r.value|]))
    ensures u.name == "" ==>
              r.Some? && r.value <= u.email && '@' !in r.value
              && (r.value == u.email || u.email[|r.value|] == '@')
  {
    if u.name != "" then
      var ws := Words(u.name);
      if ws == [] then
        NoWordsIsAllSpace(u.name);
        None
      else
        FirstWordShape(u.name);
        Some(ws[0])
    else Some(BeforeFirst(u.email, '@'))
  }

  /** `CustomUser.get_full_name`: the name, or the e-mail when the name is empty. */
  function FullName(u: User): (r: string)
    ensures u.name != "" ==> r == u.name
    ensures u.name == "" ==> r == u.email
  {
    if u.name != "" then u.name else u.email
  }

  /** `CustomUser.__str__`. */
  function UserStr(u: User): (r: string)
    ensures r == u.email
  {
    u.email
  }

  /** `CustomUserCreationForm.clean_name`: strip, collapse every run of
      whitespace to one space, and reject fewer than three characters. */
  function CleanName(name: string): (r: Result<string, AccountError>)
    ensures r.Err? <==> |Join(Words(name))| < MinNameLength
    ensures r.Err? ==> r.error == NameTooShort
    ensures r.Ok? ==> |r.value| >= MinNameLength && Normalized(r.value) && Words(r.value) == Words(name)
  {
    var stripped := Strip(name);
    WordsStrip(name);
    var collapsed := Join(Words(stripped));
    if |collapsed| < MinNameLength then Err(NameTooShort)
    else
      JoinNormalized(Words(stripped));
      WordsOfJoin(Words(stripped));
      Ok(collapsed)
  }

  /** Cleaning a cleaned name gives it back unchanged. */
  lemma CleanNameIdempotent(name: string)
    requires CleanName(name).Ok?
    ensures CleanName(CleanName(name).value) == CleanName(name)
  {
    var once := CleanName(name).value;
    var ws := Words(Strip(name));
    JoinNormalized(ws);
    WordsOfJoin(ws);
    StripNormalized(once);
    assert Words(Strip(once)) == ws;
  }
}
