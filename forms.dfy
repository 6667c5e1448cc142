/**
 * The validation rules of users/forms.py: the registration form and its
 * save, the login check, the profile-update form with its phone pattern,
 * its `clean_email` and its `clean`, and the two password-reset forms.
 *
 * A form field's own cleaning (Django's `CharField`/`EmailField`) is
 * modelled as: strip blanks, then the `required` and `max_length`
 * checks; a field that fails is absent from `cleaned_data`. The model
 * columns' own `max_length`, checked again by `full_clean`, is modelled
 * too. Only whether a form is valid is modelled, not its error messages.
 */
module Forms {
  import opened Wrappers
  import opened Text
  import opened Accounts
  import opened Store

  /**
   * A `CharField`/`EmailField` value after `to_python` (strip), the
   * `required` check and the validators every such field carries:
   * `max_length` and the refusal of a null character.
   */
  function CleanField(raw: string, required: bool, maxLength: nat): (r: Option<string>)
    ensures r.Some? ==> r.value == Strip(raw) && |r.value| <= maxLength && '\0' !in r.value && (required ==> r.value != "")
    ensures r.None? ==> (required && Strip(raw) == "") || |Strip(raw)| > maxLength || '\0' in Strip(raw)
  {
    var value := Strip(raw);
    if (required && value == "") || |value| > maxLength || '\0' in value then None else Some(value)
  }

  // ---------------------------------------------------------------------
  // Registration (`CustomUserCreationForm`)
  // ---------------------------------------------------------------------

  /** The POST data of the registration form. */
  datatype Registration = Registration(
    email: string, username: string, firstName: string, lastName: string,
    password1: string, password2: string,
    marketingConsent1: bool, marketingConsent2: bool)

  /** `clean_email` of the registration form: an address any stored account holds is refused. */
  function RegistrationCleanEmail(accounts: map<nat, Account>, email: string): (r: Option<string>)
    ensures r.None? <==> exists pk :: pk in accounts && accounts[pk].email == email
    ensures r.Some? ==> r.value == email
  {
    if EmailInUse(accounts, email) then None else Some(email)
  }

  /**
   * The double-entry check of both password forms (`clean_password2` of
   * `UserCreationForm`, `PasswordResetConfirmForm.clean`): an error when
   * both cleaned passwords are present and differ.
   */
  predicate PasswordsDiffer(password1: string, password2: string)
  {
    password1 != "" && password2 != "" && password1 != password2
  }

  /**
   * `is_valid()` of the registration form: every field passes its own
   * check (all required, at most 150 characters), the email is held by
   * no stored account, the two passwords agree, and the record passes
   * the model's checks in `full_clean` (email, first and last name at
   * most 100 characters; the username unique).
   */
  predicate RegistrationValid(accounts: map<nat, Account>, f: Registration)
  {
    && CleanField(f.email, true, 150).Some?
    && RegistrationCleanEmail(accounts, Strip(f.email)).Some?
    && CleanField(f.username, true, 150).Some?
    && CleanField(f.firstName, true, 150).Some?
    && CleanField(f.lastName, true, 150).Some?
    && CleanField(f.password1, true, 150).Some?
    && CleanField(f.password2, true, 150).Some?
    && !PasswordsDiffer(Strip(f.password1), Strip(f.password2))
    && |Strip(f.email)| <= 100 && |Strip(f.firstName)| <= 100 && |Strip(f.lastName)| <= 100
    && !UsernameInUse(accounts, Strip(f.username))
  }

  /** The instance a valid registration form builds: cleaned fields, hashed password1, both consents. */
  function RegisteredAccount(f: Registration, salt: nat): (a: Account)
    ensures a.pk == 0 && !a.emailConfirmed
    ensures a.email == Strip(f.email) && a.username == Strip(f.username)
    ensures a.firstName == Strip(f.firstName) && a.lastName == Strip(f.lastName)
    ensures CheckPassword(a.password, Strip(f.password1))
    ensures a.marketingConsent1 == f.marketingConsent1 && a.marketingConsent2 == f.marketingConsent2
    ensures a.isActive && !a.isStaff && !a.isSuperuser
  {
    NewAccount(Strip(f.email), Strip(f.firstName), Strip(f.lastName), Strip(f.username))
      .(password := SetPassword(Some(Strip(f.password1)), salt),
        marketingConsent1 := f.marketingConsent1,
        marketingConsent2 := f.marketingConsent2)
  }

  /** A valid registration never clashes with a stored row, so its save cannot fail. */
  lemma RegisteredAccountFits(accounts: map<nat, Account>, f: Registration, salt: nat)
    requires RegistrationValid(accounts, f)
    ensures !Clashes(accounts, RegisteredAccount(f, salt))
  {
  }

  /** A valid registration carries one non-empty password, typed twice. */
  lemma RegistrationPasswordsAgree(accounts: map<nat, Account>, f: Registration)
    requires RegistrationValid(accounts, f)
    ensures Strip(f.password1) != "" && Strip(f.password1) == Strip(f.password2)
  {
  }

  /** An email already held by a stored account makes the registration invalid. */
  lemma RegistrationRejectsTakenEmail(accounts: map<nat, Account>, f: Registration, pk: nat)
    requires pk in accounts && accounts[pk].email == Strip(f.email)
    ensures !RegistrationValid(accounts, f)
  {
  }

  /**
   * `CustomUserCreationForm.save(commit)`: the parent builds the instance
   * and sets password1, the consents are copied from the cleaned data,
   * and the row is written only when `commit` holds.
   */
  method SaveRegistration(db: Database, f: Registration, salt: nat, commit: bool) returns (user: Account)
    requires db.Valid() && RegistrationValid(db.accounts, f)
    modifies db
    ensures db.Valid()
    ensures commit ==>
      && user == RegisteredAccount(f, salt).(pk := old(db.nextPk))
      && db.accounts == old(db.accounts)[user.pk := user] && db.nextPk == old(db.nextPk) + 1
    ensures !commit ==>
      user == RegisteredAccount(f, salt) && db.accounts == old(db.accounts) && db.nextPk == old(db.nextPk)
  {
    // `ModelForm.save(commit=False)` builds the instance from the cleaned model fields
    user := NewAccount(Strip(f.email), Strip(f.firstName), Strip(f.lastName), Strip(f.username));
    user := user.(marketingConsent1 := f.marketingConsent1, marketingConsent2 := f.marketingConsent2);
    // `UserCreationForm.save` hashes password1
    user := user.(password := SetPassword(Some(Strip(f.password1)), salt));
    // the overriding `save` copies the consents once more
    user := user.(marketingConsent1 := f.marketingConsent1, marketingConsent2 := f.marketingConsent2);
    if commit {
      RegisteredAccountFits(db.accounts, f, salt);
      var saved := db.Save(user);
      user := saved.value;
    }
  }

  // ---------------------------------------------------------------------
  // Login (`CustomUserLoginForm`)
  // ---------------------------------------------------------------------

  datatype LoginError = InvalidLogin | InactiveAccount

  /**
   * `CustomUserLoginForm.clean` on the cleaned email and password ("" when
   * a field is missing or failed its own check). `authenticate` is the
   * configured authentication backend, passed in.
   */
  function LoginClean(email: string, password: string, authenticate: (string, string) -> Option<Account>): (r: Option<LoginError>)
    ensures r == Some(InvalidLogin) <==> email != "" && password != "" && authenticate(email, password).None?
    ensures r == Some(InactiveAccount) <==>
      email != "" && password != "" && authenticate(email, password).Some? && !authenticate(email, password).value.isActive
    ensures r.None? <==>
      email == "" || password == "" || (authenticate(email, password).Some? && authenticate(email, password).value.isActive)
  {
    if email != "" && password != "" then
      match authenticate(email, password)
      case None => Some(InvalidLogin)
      case Some(user) => if !user.isActive then Some(InactiveAccount) else None
    else None
  }

  // ---------------------------------------------------------------------
  // Profile update (`CustomUserUpdateForm`)
  // ---------------------------------------------------------------------

  /** `\d{9,15}`: nine to fifteen ASCII digits. */
  predicate DigitRun(s: string)
  {
    9 <= |s| <= 15 && AllDigits(s)
  }

  /** `1?\d{9,15}`. */
  predicate OptionalOneThenDigits(s: string)
  {
    DigitRun(s) || (s != [] && s[0] == '1' && DigitRun(s[1..]))
  }

  /** `^\+?1?\d{9,15}$`, read alternative by alternative, on a whole (stripped) value. */
  predicate PhoneMatches(s: string)
  {
    OptionalOneThenDigits(s) || (s != [] && s[0] == '+' && OptionalOneThenDigits(s[1..]))
  }

  /**
   * The phone pattern accepts exactly an optional `+` followed by 9 to 16
   * digits, where 16 digits are allowed only when the first is `1`.
   */
  lemma PhoneMatchesExactly(s: string)
    ensures PhoneMatches(s) <==>
      var digits := if s != [] && s[0] == '+' then s[1..] else s;
      AllDigits(digits) && (9 <= |digits| <= 15 || (|digits| == 16 && digits[0] == '1'))
  {
    var digits := if s != [] && s[0] == '+' then s[1..] else s;
    if s != [] && s[0] == '+' {
      assert !IsDigit(s[0]);
      assert !OptionalOneThenDigits(s);
    }
    if AllDigits(digits) && |digits| > 0 && digits[0] == '1' {
      assert AllDigits(digits[1..]);
    }
    if digits != [] && digits[0] == '1' && DigitRun(digits[1..]) {
      assert AllDigits(digits);
    }
  }

  /** The phone pattern admits values longer than the 15-character column. */
  lemma PhonePatternExceedsColumn()
    ensures PhoneMatches("+1123456789012345") && |"+1123456789012345"| == 17
  {
    var s := "+1123456789012345";
    assert s[2..] == "123456789012345";
    assert AllDigits("123456789012345");
  }

  /** The POST data of the profile form. */
  datatype ProfileForm = ProfileForm(
    firstName: string, lastName: string, phone: string, username: string, email: string,
    address1: string, address2: string, city: string, country: string, province: string, postalCode: string,
    marketingConsent1: bool, marketingConsent2: bool)

  /** The text fields of the profile form, in `Meta.fields` order. */
  const ProfileFields: seq<TextField> :=
    [FirstName, LastName, Phone, Username, Email, Address1, Address2, City, Country, Province, PostalCode]

  lemma ProfileFieldsAreAllFields(field: TextField)
    ensures field in ProfileFields
  {
  }

  /** The submitted text of one field. */
  function Submitted(f: ProfileForm, field: TextField): string
  {
    match field
    case FirstName => f.firstName
    case LastName => f.lastName
    case Phone => f.phone
    case Username => f.username
    case Email => f.email
    case Address1 => f.address1
    case Address2 => f.address2
    case City => f.city
    case Country => f.country
    case Province => f.province
    case PostalCode => f.postalCode
  }

  /** The column's `max_length` in users/models.py. */
  function ColumnLimit(field: TextField): nat
  {
    match field
    case FirstName | LastName | Email => 100
    case Username | Country => 150
    case Phone | PostalCode => 15
    case Address1 | Address2 | City | Province => 255
  }

  /**
   * One field's own cleaning on the profile form. The phone field is
   * optional, has no length limit of its own and must match the pattern
   * when non-empty; the four declared fields are required with at most
   * 150 characters; the others are generated from their optional columns.
   */
  function CleanProfileField(field: TextField, raw: string): (r: Option<string>)
    ensures r.Some? ==> r.value == Strip(raw)
    ensures field == Phone ==> (r.Some? <==> Strip(raw) == "" || PhoneMatches(Strip(raw)))
  {
    match field
    case Phone => if Strip(raw) == "" || PhoneMatches(Strip(raw)) then Some(Strip(raw)) else None
    case FirstName | LastName | Username | Email => CleanField(raw, true, 150)
    case _ => CleanField(raw, false, ColumnLimit(field))
  }

  /** `cleaned_data` after every field's own cleaning: the fields that passed, with their stripped values. */
  function FieldsCleaned(f: ProfileForm): (m: map<TextField, string>)
    ensures forall field :: field in m <==> CleanProfileField(field, Submitted(f, field)).Some?
    ensures forall field :: field in m ==> m[field] == Strip(Submitted(f, field))
  {
    map field: TextField | field in ProfileFields && CleanProfileField(field, Submitted(f, field)).Some? :: Strip(Submitted(f, field))
  }

  /** `clean_email` of the profile form: refused when an account other than the one edited holds it. */
  function ProfileCleanEmail(accounts: map<nat, Account>, self: nat, email: string): (r: Option<string>)
    ensures r.None? <==> email != "" && exists pk :: pk in accounts && pk != self && accounts[pk].email == email
    ensures r.Some? ==> r.value == email
  {
    if email != "" && EmailInUseByOther(accounts, self, email) then None else Some(email)
  }

  /** The account's own address always passes `clean_email`. */
  lemma ProfileCleanEmailAcceptsOwnEmail(accounts: map<nat, Account>, nextPk: nat, self: nat)
    requires Consistent(accounts, nextPk) && self in accounts
    ensures ProfileCleanEmail(accounts, self, accounts[self].email) == Some(accounts[self].email)
  {
  }

  /** `cleaned_data` after `clean_email`: a refused address is dropped (Django's `add_error`). */
  function AfterCleanEmail(accounts: map<nat, Account>, self: nat, cleaned: map<TextField, string>): (m: map<TextField, string>)
    ensures Email in cleaned && ProfileCleanEmail(accounts, self, cleaned[Email]).None? ==> m == cleaned - {Email}
    ensures !(Email in cleaned && ProfileCleanEmail(accounts, self, cleaned[Email]).None?) ==> m == cleaned
  {
    if Email in cleaned && ProfileCleanEmail(accounts, self, cleaned[Email]).None? then cleaned - {Email} else cleaned
  }

  /** The markup stripping of the profile form's `clean`, on every listed, non-empty value. */
  function StripListed(m: map<TextField, string>): map<TextField, string>
  {
    map k | k in m :: if k in SanitizedFields then StripIfSet(m[k]) else m[k]
  }

  /**
   * The `cleaned_data` the profile form's `clean` returns. Only when the
   * email is missing or empty does it restore the instance's email and
   * strip tags from the listed non-empty values; otherwise it returns
   * `cleaned_data` as it is.
   */
  function ProfileCleanResult(cleaned: map<TextField, string>, instanceEmail: string): (r: map<TextField, string>)
    ensures Email in cleaned && cleaned[Email] != "" ==> r == cleaned
    ensures !(Email in cleaned && cleaned[Email] != "") ==>
      && r.Keys == cleaned.Keys + {Email}
      && r[Email] == instanceEmail
      && (forall k :: k in cleaned && k != Email && k !in SanitizedFields ==> r[k] == cleaned[k])
      && (forall k :: k in cleaned && k in SanitizedFields ==> r[k] == StripIfSet(cleaned[k]))
  {
    if Email in cleaned && cleaned[Email] != "" then cleaned
    else StripListed(cleaned[Email := instanceEmail])
  }

  /** The dictionary after the clean loop has handled the listed fields in `done`. */
  ghost function PartlyStripped(base: map<TextField, string>, done: set<TextField>): map<TextField, string>
  {
    map k | k in base :: StripIfHandled(k in done, base[k])
  }

  /** Handling one more field strips its value, if it is present and set, and nothing else. */
  lemma PartlyStrippedStep(base: map<TextField, string>, done: set<TextField>, field: TextField)
    requires field !in done
    ensures PartlyStripped(base, done + {field}) ==
        if field in base && base[field] != "" then PartlyStripped(base, done)[field := StripTags(base[field])]
        else PartlyStripped(base, done)
  {
  }

  /** Before the loop nothing is stripped; after it, exactly the listed fields are. */
  lemma PartlyStrippedEnds(base: map<TextField, string>)
    ensures PartlyStripped(base, {}) == base
    ensures PartlyStripped(base, FirstListed(|SanitizedFields|)) == StripListed(base)
  {
    assert SanitizedFields[..|SanitizedFields|] == SanitizedFields;
  }

  /** `CustomUserUpdateForm.clean`: the dictionary is changed in place, field by field. */
  method ProfileClean(cleaned: map<TextField, string>, instanceEmail: string) returns (result: map<TextField, string>)
    ensures result == ProfileCleanResult(cleaned, instanceEmail)
  {
    result := cleaned;
    if !(Email in result && result[Email] != "") {
      result := result[Email := instanceEmail];
      ghost var base := result;
      PartlyStrippedEnds(base);
      for i := 0 to |SanitizedFields|
        invariant result == PartlyStripped(base, FirstListed(i))
      {
        var field := SanitizedFields[i];
        FirstListedGrows(i);
        PartlyStrippedStep(base, FirstListed(i), field);
        if field in result && result[field] != "" {
          result := result[field := StripTags(result[field])];
        }
      }
    }
  }

  /**
   * On a form whose email passes its own check and `clean_email`, the
   * form's `clean` returns `cleaned_data` unchanged: its tag stripping
   * never runs for a form that can be saved.
   */
  lemma ProfileCleanIsIdentityOnAcceptedEmail(accounts: map<nat, Account>, self: nat, f: ProfileForm, instanceEmail: string)
    requires Email in FieldsCleaned(f)
    requires ProfileCleanEmail(accounts, self, Strip(f.email)).Some?
    ensures ProfileCleanResult(AfterCleanEmail(accounts, self, FieldsCleaned(f)), instanceEmail) == FieldsCleaned(f)
  {
    assert CleanProfileField(Email, f.email).Some?;
  }

  /** `construct_instance`: the instance takes every cleaned field it has, and the two consents. */
  function Construct(instance: Account, cleaned: map<TextField, string>, f: ProfileForm): (a: Account)
    ensures a.pk == instance.pk && a.password == instance.password && a.emailConfirmed == instance.emailConfirmed
    ensures a.marketingConsent1 == f.marketingConsent1 && a.marketingConsent2 == f.marketingConsent2
  {
    instance.(
      firstName := GetOr(cleaned, FirstName, instance.firstName),
      lastName := GetOr(cleaned, LastName, instance.lastName),
      phone := GetOr(cleaned, Phone, instance.phone),
      username := GetOr(cleaned, Username, instance.username),
      email := GetOr(cleaned, Email, instance.email),
      address1 := GetOr(cleaned, Address1, instance.address1),
      address2 := GetOr(cleaned, Address2, instance.address2),
      city := GetOr(cleaned, City, instance.city),
      country := GetOr(cleaned, Country, instance.country),
      province := GetOr(cleaned, Province, instance.province),
      postalCode := GetOr(cleaned, PostalCode, instance.postalCode),
      marketingConsent1 := f.marketingConsent1,
      marketingConsent2 := f.marketingConsent2)
  }

  /** The edited record a fully valid profile form describes, before `CustomUser.clean`. */
  function ProfileAccount(instance: Account, f: ProfileForm): (a: Account)
    ensures a.pk == instance.pk && a.password == instance.password && a.emailConfirmed == instance.emailConfirmed
    ensures a.isActive == instance.isActive && a.isStaff == instance.isStaff && a.isSuperuser == instance.isSuperuser
    ensures a.marketingConsent1 == f.marketingConsent1 && a.marketingConsent2 == f.marketingConsent2
  {
    instance.(
      firstName := Strip(f.firstName), lastName := Strip(f.lastName), phone := Strip(f.phone),
      username := Strip(f.username), email := Strip(f.email),
      address1 := Strip(f.address1), address2 := Strip(f.address2), city := Strip(f.city),
      country := Strip(f.country), province := Strip(f.province), postalCode := Strip(f.postalCode),
      marketingConsent1 := f.marketingConsent1, marketingConsent2 := f.marketingConsent2)
  }

  /** When every field has a cleaned value, `construct_instance` takes each of them. */
  lemma ConstructFromFullData(instance: Account, m: map<TextField, string>, f: ProfileForm)
    requires FirstName in m && LastName in m && Phone in m && Username in m && Email in m && Address1 in m
    requires Address2 in m && City in m && Country in m && Province in m && PostalCode in m
    ensures Construct(instance, m, f) == instance.(
      firstName := m[FirstName], lastName := m[LastName], phone := m[Phone], username := m[Username],
      email := m[Email], address1 := m[Address1], address2 := m[Address2], city := m[City],
      country := m[Country], province := m[Province], postalCode := m[PostalCode],
      marketingConsent1 := f.marketingConsent1, marketingConsent2 := f.marketingConsent2)
  {
  }

  /** When every field passes its own check, `cleaned_data` holds the stripped submission of each. */
  lemma FullDataIsStripped(f: ProfileForm)
    requires forall field :: field in FieldsCleaned(f)
    ensures var m := FieldsCleaned(f);
      && FirstName in m && LastName in m && Phone in m && Username in m && Email in m && Address1 in m
      && Address2 in m && City in m && Country in m && Province in m && PostalCode in m
      && m[FirstName] == Strip(f.firstName) && m[LastName] == Strip(f.lastName) && m[Phone] == Strip(f.phone)
      && m[Username] == Strip(f.username) && m[Email] == Strip(f.email) && m[Address1] == Strip(f.address1)
      && m[Address2] == Strip(f.address2) && m[City] == Strip(f.city) && m[Country] == Strip(f.country)
      && m[Province] == Strip(f.province) && m[PostalCode] == Strip(f.postalCode)
  {
    var m := FieldsCleaned(f);
    assert FirstName in m && LastName in m && Phone in m && Username in m && Email in m && Address1 in m;
    assert Address2 in m && City in m && Country in m && Province in m && PostalCode in m;
  }

  /** Every text field of the profile form passes its own check. */
  predicate FieldsPass(f: ProfileForm)
  {
    forall field :: CleanProfileField(field, Submitted(f, field)).Some?
  }

  /** Every stripped submission fits its column's `max_length`. */
  predicate FitsColumns(f: ProfileForm)
  {
    forall field :: |Strip(Submitted(f, field))| <= ColumnLimit(field)
  }

  /**
   * `is_valid()` of the profile form: every text field passes its own
   * check and fits its column, and no other account holds the email or
   * the username.
   */
  predicate ProfileValid(accounts: map<nat, Account>, instance: Account, f: ProfileForm)
  {
    && FieldsPass(f)
    && FitsColumns(f)
    && !EmailInUseByOther(accounts, instance.pk, Strip(f.email))
    && !UsernameInUseByOther(accounts, instance.pk, Strip(f.username))
  }

  /** Every field is in `cleaned_data` exactly when every field passed. */
  lemma AllCleanedIffFieldsPass(f: ProfileForm)
    ensures (forall field :: field in ProfileFields ==> field in FieldsCleaned(f)) <==> FieldsPass(f)
  {
    if FieldsPass(f) {
      forall field | field in ProfileFields ensures field in FieldsCleaned(f) {
        assert CleanProfileField(field, Submitted(f, field)).Some?;
      }
    }
    if forall field :: field in ProfileFields ==> field in FieldsCleaned(f) {
      forall field: TextField ensures CleanProfileField(field, Submitted(f, field)).Some? {
        ProfileFieldsAreAllFields(field);
      }
    }
  }

  /** On a form whose fields all pass, `clean_email` refuses exactly an address another account holds. */
  lemma EmailRefusedIffTaken(accounts: map<nat, Account>, self: nat, f: ProfileForm)
    requires FieldsPass(f)
    ensures (Email in FieldsCleaned(f) && ProfileCleanEmail(accounts, self, FieldsCleaned(f)[Email]).None?)
        <==> EmailInUseByOther(accounts, self, Strip(f.email))
  {
    assert CleanProfileField(Email, Submitted(f, Email)).Some?;
  }

  /** Each text column of the edited record is the stripped submission. */
  lemma ProfileAccountText(instance: Account, f: ProfileForm, field: TextField)
    ensures GetText(ProfileAccount(instance, f), field) == Strip(Submitted(f, field))
  {
  }

  /** The column-length part of `full_clean`, on the edited record, is `FitsColumns`. */
  lemma ProfileAccountFitsIff(instance: Account, f: ProfileForm)
    ensures (forall field :: field in ProfileFields ==> |GetText(ProfileAccount(instance, f), field)| <= ColumnLimit(field))
        <==> FitsColumns(f)
  {
    forall field: TextField ensures GetText(ProfileAccount(instance, f), field) == Strip(Submitted(f, field)) {
      ProfileAccountText(instance, f, field);
    }
    forall field: TextField ensures field in ProfileFields {
      ProfileFieldsAreAllFields(field);
    }
  }

  /**
   * When every field passes and the email is accepted, `_post_clean`
   * builds exactly the edited record.
   */
  lemma AcceptedFieldsBuildProfile(accounts: map<nat, Account>, instance: Account, f: ProfileForm)
    requires forall field :: field in FieldsCleaned(f)
    requires ProfileCleanEmail(accounts, instance.pk, Strip(f.email)).Some?
    ensures Construct(instance, ProfileCleanResult(AfterCleanEmail(accounts, instance.pk, FieldsCleaned(f)), instance.email), f)
         == ProfileAccount(instance, f)
  {
    ProfileCleanIsIdentityOnAcceptedEmail(accounts, instance.pk, f, instance.email);
    FullDataIsStripped(f);
    ConstructFromFullData(instance, FieldsCleaned(f), f);
  }

  /**
   * The form-side half of `is_valid()`: each field's own cleaning, then
   * `clean_email`, then `clean`. Returns whether no error was recorded
   * and the `cleaned_data` that `clean` returns.
   */
  method CleanProfileForm(accounts: map<nat, Account>, instance: Account, f: ProfileForm) returns (ok: bool, cleaned: map<TextField, string>)
    ensures ok <==> FieldsPass(f) && !EmailInUseByOther(accounts, instance.pk, Strip(f.email))
    ensures cleaned == ProfileCleanResult(AfterCleanEmail(accounts, instance.pk, FieldsCleaned(f)), instance.email)
  {
    cleaned := FieldsCleaned(f);
    ok := forall field :: field in ProfileFields ==> field in cleaned;
    AllCleanedIffFieldsPass(f);
    if Email in cleaned && ProfileCleanEmail(accounts, instance.pk, cleaned[Email]).None? {
      cleaned := cleaned - {Email};
      ok := false;
    } else if ok {
      EmailRefusedIffTaken(accounts, instance.pk, f);
    }
    cleaned := ProfileClean(cleaned, instance.email);
  }

  /**
   * `_post_clean`: `construct_instance`, then `full_clean` on the
   * instance, which checks the column lengths, runs `CustomUser.clean`
   * and checks that no other account holds the username. Returns whether
   * it recorded no error and the instance as it leaves it.
   */
  method PostClean(accounts: map<nat, Account>, instance: Account, cleaned: map<TextField, string>, f: ProfileForm)
    returns (ok: bool, user: Account)
    ensures var built := Construct(instance, cleaned, f);
      && user == Sanitized(built)
      && (ok <==> (forall field :: field in ProfileFields ==> |GetText(built, field)| <= ColumnLimit(field))
                  && !UsernameInUseByOther(accounts, instance.pk, built.username))
  {
    user := Construct(instance, cleaned, f);
    ok := forall field :: field in ProfileFields ==> |GetText(user, field)| <= ColumnLimit(field);
    user := Clean(user);
    ok := ok && !UsernameInUseByOther(accounts, instance.pk, user.username);
  }

  /**
   * `form.is_valid()` for `CustomUserUpdateForm(data, instance=instance)`:
   * the form's own checks, then `_post_clean`. Returns the verdict and
   * the instance as `_post_clean` leaves it.
   */
  method ValidateProfile(accounts: map<nat, Account>, instance: Account, f: ProfileForm) returns (valid: bool, user: Account)
    ensures valid <==> ProfileValid(accounts, instance, f)
    ensures valid ==> user == Sanitized(ProfileAccount(instance, f))
  {
    var formOk, cleaned := CleanProfileForm(accounts, instance, f);
    var modelOk;
    modelOk, user := PostClean(accounts, instance, cleaned, f);
    valid := formOk && modelOk;
    if formOk {
      AllCleanedIffFieldsPass(f);
      AcceptedFieldsBuildProfile(accounts, instance, f);
      ProfileAccountFitsIff(instance, f);
    }
  }

  /** The record a valid profile form saves holds no other account's email or username. */
  lemma ValidProfileNeverClashes(accounts: map<nat, Account>, instance: Account, f: ProfileForm)
    requires ProfileValid(accounts, instance, f)
    ensures !Clashes(accounts, Sanitized(ProfileAccount(instance, f)))
  {
  }

  // ---------------------------------------------------------------------
  // Password reset (`PasswordResetRequestForm`, `PasswordResetConfirmForm`)
  // ---------------------------------------------------------------------

  /** The cleaned email of the reset-request form, or `None` when the form is invalid. */
  function ResetRequestEmail(raw: string): (r: Option<string>)
    ensures r.Some? <==> Strip(raw) != "" && |Strip(raw)| <= 150 && '\0' !in Strip(raw)
    ensures r.Some? ==> r.value == Strip(raw)
  {
    CleanField(raw, true, 150)
  }

  /** The POST data of the reset-confirm form. */
  datatype NewPasswords = NewPasswords(password1: string, password2: string)

  /** `is_valid()` of the reset-confirm form. */
  predicate ResetConfirmValid(f: NewPasswords)
  {
    && CleanField(f.password1, true, 150).Some?
    && CleanField(f.password2, true, 150).Some?
    && !PasswordsDiffer(Strip(f.password1), Strip(f.password2))
  }

  /** A valid reset-confirm form carries one non-empty password, typed twice. */
  lemma ResetConfirmValidMeansMatch(f: NewPasswords)
    ensures ResetConfirmValid(f) <==>
      && Strip(f.password1) != "" && Strip(f.password1) == Strip(f.password2)
      && |Strip(f.password1)| <= 150 && '\0' !in Strip(f.password1)
  {
  }
}
