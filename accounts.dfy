/**
 * The `CustomUser` record of users/models.py: its columns, its defaults,
 * the stored password, and `CustomUser.clean`, which strips markup from
 * the free-text profile fields.
 */
module Accounts {
  import opened Wrappers
  import opened Text

  /**
   * The `password` column. `Hashed(raw, salt)` stands for the salted
   * one-way hash Django's hasher writes: the model compares it only
   * through `CheckPassword`, never reads `raw` back. `Unusable` is both
   * the empty column of an instance that never had `set_password`
   * called and the unusable marker `set_password(None)` writes; neither
   * matches any password.
   */
  datatype Credential = Unusable | Hashed(raw: string, salt: nat)

  /** `user.set_password(raw)`; `salt` is the hasher's randomness, passed in. */
  function SetPassword(raw: Option<string>, salt: nat): (c: Credential)
    ensures c.Unusable? <==> raw.None?
    ensures forall p :: raw == Some(p) ==> CheckPassword(c, p)
  {
    match raw
    case None => Unusable
    case Some(p) => Hashed(p, salt)
  }

  /** `user.check_password(raw)`. */
  predicate CheckPassword(c: Credential, raw: string)
  {
    c.Hashed? && c.raw == raw
  }

  /** A credential accepts exactly the password it was set from. */
  lemma SetPasswordAcceptsOnlyThatPassword(raw: string, salt: nat, other: string)
    ensures CheckPassword(SetPassword(Some(raw), salt), other) <==> other == raw
    ensures !CheckPassword(SetPassword(None, salt), other)
  {
  }

  /**
   * One row of the user table. `pk` is 0 until the row is first saved
   * (Python's `None`). The nullable text columns hold "" for both `None`
   * and the empty string: the code under model only ever tests them for
   * truth, and both are false.
   */
  datatype Account = Account(
    pk: nat,
    email: string,
    username: string,
    firstName: string,
    lastName: string,
    password: Credential,
    phone: string,
    address1: string,
    address2: string,
    city: string,
    country: string,
    province: string,
    postalCode: string,
    marketingConsent1: bool,
    marketingConsent2: bool,
    emailConfirmed: bool,
    isStaff: bool,
    isSuperuser: bool,
    isActive: bool)

  /**
   * `CustomUser(email=..., first_name=..., last_name=..., username=...)`
   * before its first save: every other column at its model default.
   */
  function NewAccount(email: string, firstName: string, lastName: string, username: string): (a: Account)
    ensures a.pk == 0 && a.password.Unusable?
    ensures !a.emailConfirmed && !a.marketingConsent1 && !a.marketingConsent2
    ensures a.isActive && !a.isStaff && !a.isSuperuser
    ensures a.email == email && a.firstName == firstName && a.lastName == lastName && a.username == username
  {
    Account(0, email, username, firstName, lastName, Unusable, "", "", "", "", "", "", "",
            false, false, false, false, false, true)
  }

  /** The text columns, by their names in users/models.py. */
  datatype TextField =
    | FirstName | LastName | Phone | Username | Email
    | Address1 | Address2 | City | Country | Province | PostalCode

  /** The fields `CustomUser.clean` strips of markup, in its order. */
  const SanitizedFields: seq<TextField> := [Phone, Address1, Address2, City, Country, Province, PostalCode]

  /** `getattr(user, field)`. */
  function GetText(a: Account, field: TextField): string
  {
    match field
    case FirstName => a.firstName
    case LastName => a.lastName
    case Phone => a.phone
    case Username => a.username
    case Email => a.email
    case Address1 => a.address1
    case Address2 => a.address2
    case City => a.city
    case Country => a.country
    case Province => a.province
    case PostalCode => a.postalCode
  }

  /** `setattr(user, field, value)`. */
  function SetText(a: Account, field: TextField, value: string): Account
  {
    match field
    case FirstName => a.(firstName := value)
    case LastName => a.(lastName := value)
    case Phone => a.(phone := value)
    case Username => a.(username := value)
    case Email => a.(email := value)
    case Address1 => a.(address1 := value)
    case Address2 => a.(address2 := value)
    case City => a.(city := value)
    case Country => a.(country := value)
    case Province => a.(province := value)
    case PostalCode => a.(postalCode := value)
  }

  /** Writing back the value a field already holds changes nothing. */
  lemma SetOwnText(a: Account, field: TextField)
    ensures SetText(a, field, GetText(a, field)) == a
  {
  }

  /** One step of the clean loop: a set value loses its tags, an empty one is left alone. */
  function StripIfSet(value: string): string
  {
    if value != "" then StripTags(value) else value
  }

  /** The record `CustomUser.clean` leaves behind. */
  function Sanitized(a: Account): Account
  {
    a.(phone := StripIfSet(a.phone),
       address1 := StripIfSet(a.address1),
       address2 := StripIfSet(a.address2),
       city := StripIfSet(a.city),
       country := StripIfSet(a.country),
       province := StripIfSet(a.province),
       postalCode := StripIfSet(a.postalCode))
  }

  /** A value the clean loop has reached (`handled`) is stripped if set; one it has not is as it was. */
  function StripIfHandled(handled: bool, value: string): string
  {
    if handled then StripIfSet(value) else value
  }

  /** The record after the clean loop has handled the fields in `done`. */
  ghost function PartiallySanitized(a: Account, done: set<TextField>): Account
  {
    a.(phone := StripIfHandled(Phone in done, a.phone),
       address1 := StripIfHandled(Address1 in done, a.address1),
       address2 := StripIfHandled(Address2 in done, a.address2),
       city := StripIfHandled(City in done, a.city),
       country := StripIfHandled(Country in done, a.country),
       province := StripIfHandled(Province in done, a.province),
       postalCode := StripIfHandled(PostalCode in done, a.postalCode))
  }

  /** Handling one more listed field strips that field, if set, and nothing else. */
  lemma CleanStep(a: Account, done: set<TextField>, field: TextField)
    requires field in SanitizedFields && field !in done
    ensures var r := PartiallySanitized(a, done);
      PartiallySanitized(a, done + {field}) == SetText(r, field, StripIfSet(GetText(r, field)))
  {
    var r := PartiallySanitized(a, done);
    var after := done + {field};
    assert forall x :: x in after <==> x in done || x == field;
    match field
    case Phone =>
    case Address1 =>
    case Address2 =>
    case City =>
    case Country =>
    case Province =>
    case PostalCode =>
  }

  /** The first `n` fields of `SanitizedFields`, as a set. */
  ghost function FirstListed(n: nat): set<TextField>
    requires n <= |SanitizedFields|
  {
    set k | k in SanitizedFields[..n]
  }

  /** The next field of the list joins the set, and was not in it before (the list has no repeats). */
  lemma FirstListedGrows(n: nat)
    requires n < |SanitizedFields|
    ensures FirstListed(n + 1) == FirstListed(n) + {SanitizedFields[n]}
    ensures SanitizedFields[n] !in FirstListed(n)
  {
    assert SanitizedFields[..n + 1] == SanitizedFields[..n] + [SanitizedFields[n]];
  }

  /** Before the loop the record is untouched; after the whole list it is `Sanitized`. */
  lemma AllListedHandled(a: Account)
    ensures PartiallySanitized(a, {}) == a
    ensures PartiallySanitized(a, FirstListed(|SanitizedFields|)) == Sanitized(a)
  {
    assert SanitizedFields[..|SanitizedFields|] == SanitizedFields;
  }

  /** `CustomUser.clean`: for each listed field, a non-empty value is replaced by its tag-stripped form. */
  method Clean(a: Account) returns (r: Account)
    ensures r == Sanitized(a)
  {
    AllListedHandled(a);
    r := a;
    for i := 0 to |SanitizedFields|
      invariant r == PartiallySanitized(a, FirstListed(i))
    {
      var field := SanitizedFields[i];
      var value := GetText(r, field);
      FirstListedGrows(i);
      CleanStep(a, FirstListed(i), field);
      if value != "" {
        r := SetText(r, field, StripTags(value));
      } else {
        SetOwnText(r, field);
      }
    }
  }

  /**
   * Clean changes only the seven listed fields, and of those only the
   * non-empty ones, each to its tag-stripped form.
   */
  lemma CleanTouchesOnlyListedFields(a: Account, field: TextField)
    ensures field in SanitizedFields ==> GetText(Sanitized(a), field) == StripIfSet(GetText(a, field))
    ensures field !in SanitizedFields ==> GetText(Sanitized(a), field) == GetText(a, field)
    ensures var s := Sanitized(a);
      s.pk == a.pk && s.password == a.password
      && s.marketingConsent1 == a.marketingConsent1 && s.marketingConsent2 == a.marketingConsent2
      && s.emailConfirmed == a.emailConfirmed
      && s.isStaff == a.isStaff && s.isSuperuser == a.isSuperuser && s.isActive == a.isActive
  {
  }

  /** After clean, no listed field contains the start of a tag. */
  lemma CleanLeavesNoMarkup(a: Account, field: TextField)
    requires field in SanitizedFields
    ensures '<' !in GetText(Sanitized(a), field)
  {
    StripTagsLeavesNoTag(GetText(a, field));
  }

  lemma StripIfSetIdempotent(value: string)
    ensures StripIfSet(StripIfSet(value)) == StripIfSet(value)
  {
    StripTagsIdempotent(value);
  }

  /** Cleaning a cleaned record changes nothing, so calling `clean` twice is harmless. */
  lemma CleanIdempotent(a: Account)
    ensures Sanitized(Sanitized(a)) == Sanitized(a)
  {
    StripIfSetIdempotent(a.phone);
    StripIfSetIdempotent(a.address1);
    StripIfSetIdempotent(a.address2);
    StripIfSetIdempotent(a.city);
    StripIfSetIdempotent(a.country);
    StripIfSetIdempotent(a.province);
    StripIfSetIdempotent(a.postalCode);
  }
}
