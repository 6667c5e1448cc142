/**
 * `CustomUserManager` of users/models.py: `create_user`, which builds,
 * hashes and saves a record, and `create_superuser`, which fills in the
 * staff flags and a username before delegating to it.
 */
module Managers {
  import opened Wrappers
  import opened Text
  import opened Accounts
  import opened Store

  /** The split of an already stripped address at its last `@`, with the domain lower-cased. */
  function SplitDomain(s: string): (r: Option<string>)
    ensures r.None? <==> '@' !in s
  {
    var at := LastIndexOf(s, '@');
    if at < 0 then None else Some(s[..at] + "@" + Lower(s[at + 1..]))
  }

  /**
   * `BaseUserManager.normalize_email`: the address is stripped and split
   * at its last `@`; the domain part is lower-cased and the local part
   * kept. An address without `@` is returned as given (unstripped, as
   * Django's `ValueError` branch does).
   */
  function NormalizeEmail(email: string): (r: string)
    ensures '@' !in Strip(email) ==> r == email
    ensures '@' in Strip(email) ==>
      var s := Strip(email); var at := LastIndexOf(s, '@');
      && |r| == |s|
      && r[..at] == s[..at] && r[at] == '@'
      && (forall i {:trigger r[i]} :: at < i < |s| ==> r[i] == LowerChar(s[i]))
  {
    match SplitDomain(Strip(email))
    case None => email
    case Some(normalized) =>
      var s := Strip(email);
      var at := LastIndexOf(s, '@');
      SplitAround(s, at);
      JoinedShape(s[..at], s[at + 1..], s);
      normalized
  }

  lemma LowerCharKeepsAt(c: char)
    ensures LowerChar(c) == '@' <==> c == '@'
    ensures IsSpace(LowerChar(c)) <==> IsSpace(c)
  {
  }

  /** An address is its part before the `@` at `at`, that `@`, and its part after. */
  lemma SplitAround(s: string, at: nat)
    requires at < |s| && s[at] == '@'
    ensures s == s[..at] + "@" + s[at + 1..]
  {
  }

  /** The shape of `local + "@" + Lower(domain)` against the address it was split from. */
  lemma JoinedShape(local: string, domain: string, s: string)
    requires s == local + "@" + domain
    ensures var r := local + "@" + Lower(domain); var at := |local|;
      && |r| == |s| && r[..at] == s[..at] && r[at] == '@'
      && (forall i :: at < i < |s| ==> r[i] == LowerChar(s[i]))
  {
    var r := local + "@" + Lower(domain);
    forall i | |local| < i < |s|
      ensures r[i] == LowerChar(s[i])
    {
      assert r[i] == Lower(domain)[i - |local| - 1];
      assert s[i] == domain[i - |local| - 1];
    }
  }

  lemma {:induction false} LowerIdempotent(s: string)
    ensures Lower(Lower(s)) == Lower(s)
  {
    assert forall i :: 0 <= i < |s| ==> LowerChar(LowerChar(s[i])) == LowerChar(s[i]);
  }

  lemma LowerKeepsNoAt(s: string)
    requires '@' !in s
    ensures '@' !in Lower(s)
  {
    forall i | 0 <= i < |s|
      ensures Lower(s)[i] != '@'
    {
      assert s[i] in s;
      LowerCharKeepsAt(s[i]);
    }
  }

  /** Joining a local part that starts with no blank and a domain that ends with none gives a stripped address. */
  lemma JoinedIsStripped(local: string, domain: string)
    requires local == [] || !IsSpace(local[0])
    requires domain == [] || !IsSpace(domain[|domain| - 1])
    ensures Strip(local + "@" + domain) == local + "@" + domain
  {
    var r := local + "@" + domain;
    assert r[0] == if local == [] then '@' else local[0];
    assert r[|r| - 1] == if domain == [] then '@' else domain[|domain| - 1];
    StripKeepsTrimmed(r);
  }

  lemma SplitDomainAt(local: string, domain: string)
    requires '@' !in domain
    ensures SplitDomain(local + "@" + domain) == Some(local + "@" + Lower(domain))
  {
    var r := local + "@" + domain;
    assert r[|local| + 1..] == domain;
    LastIndexOfAt(r, '@', |local|);
    assert r[..|local|] == local;
  }

  /** An address split into a trimmed local part and an `@`-free domain normalises by lowering the domain. */
  lemma NormalizeSplit(local: string, domain: string)
    requires '@' !in domain
    requires local == [] || !IsSpace(local[0])
    requires domain == [] || !IsSpace(domain[|domain| - 1])
    ensures NormalizeEmail(local + "@" + domain) == local + "@" + Lower(domain)
  {
    JoinedIsStripped(local, domain);
    SplitDomainAt(local, domain);
  }

  /** With an `@`, the normalised address is the stripped local part, `@`, and the lowered domain. */
  lemma NormalizeEmailParts(email: string)
    requires '@' in Strip(email)
    ensures var s := Strip(email); var at := LastIndexOf(s, '@');
      NormalizeEmail(email) == s[..at] + "@" + Lower(s[at + 1..])
  {
  }

  /** A split address with its domain already lowered is left as it is. */
  lemma NormalizedIsFixed(local: string, domain: string)
    requires '@' !in domain
    requires local == [] || !IsSpace(local[0])
    requires domain == [] || !IsSpace(domain[|domain| - 1])
    ensures NormalizeEmail(local + "@" + Lower(domain)) == local + "@" + Lower(domain)
  {
    LowerKeepsNoAt(domain);
    if domain != [] {
      LowerCharKeepsAt(domain[|domain| - 1]);
    }
    NormalizeSplit(local, Lower(domain));
    LowerIdempotent(domain);
  }

  /** Normalising a normalised address changes nothing. */
  lemma NormalizeEmailIdempotent(email: string)
    ensures NormalizeEmail(NormalizeEmail(email)) == NormalizeEmail(email)
  {
    if '@' in Strip(email) {
      NormalizedAddressIsFixed(email);
    }
  }

  /** An address with an `@` normalises to a split address that normalisation leaves alone. */
  lemma NormalizedAddressIsFixed(email: string)
    requires '@' in Strip(email)
    ensures NormalizeEmail(NormalizeEmail(email)) == NormalizeEmail(email)
  {
    StrippedParts(email);
    NormalizeEmailParts(email);
    var s := Strip(email);
    var at := LastIndexOf(s, '@');
    NormalizedIsFixed(s[..at], s[at + 1..]);
  }

  /** The parts of a stripped address around its last `@`: a domain with no `@`, and no blank at the outer ends. */
  lemma StrippedParts(email: string)
    requires '@' in Strip(email)
    ensures var s := Strip(email); var at := LastIndexOf(s, '@'); var local := s[..at]; var domain := s[at + 1..];
      && '@' !in domain
      && (local == [] || !IsSpace(local[0]))
      && (domain == [] || !IsSpace(domain[|domain| - 1]))
  {
    var s := Strip(email);
    SplitEnds(s, LastIndexOf(s, '@'));
  }

  /** The outer ends of the two parts of `s` around position `at` are the ends of `s`. */
  lemma SplitEnds(s: string, at: nat)
    requires s == [] || (!IsSpace(s[0]) && !IsSpace(s[|s| - 1]))
    requires at < |s| && s[at] == '@' && '@' !in s[at + 1..]
    ensures var local := s[..at]; var domain := s[at + 1..];
      && '@' !in domain
      && (local == [] || !IsSpace(local[0]))
      && (domain == [] || !IsSpace(domain[|domain| - 1]))
  {
    assert s[at + 1..] == [] || s[at + 1..][|s| - at - 2] == s[|s| - 1];
  }

  /** `email.split('@')[0]`: everything before the first `@`. */
  function UsernameFromEmail(email: string): (r: string)
    ensures '@' !in r
    ensures r <= email
    ensures |r| < |email| ==> email[|r|] == '@'
  {
    email[..FirstIndexOf(email, '@')]
  }

  /** An address with no `@` is its own username; otherwise the username stops at the first `@`. */
  lemma UsernameFromEmailCases(email: string, local: string, rest: string)
    ensures '@' !in email ==> UsernameFromEmail(email) == email
    ensures '@' !in local ==> UsernameFromEmail(local + "@" + rest) == local
  {
    if '@' !in email {
      assert email[..|email|] == email;
      FirstIndexOfAt(email, '@', |email|);
    }
    if '@' !in local {
      var e := local + "@" + rest;
      assert e[..|local|] == local;
      FirstIndexOfAt(e, '@', |local|);
    }
  }

  /**
   * The instance `create_user` saves, before the database gives it a pk.
   * `**extra_fields` is a map of booleans: every boolean column it names
   * is set from it, and every other boolean column keeps its default.
   */
  function CreatedRecord(email: string, firstName: string, lastName: string, username: string,
                         password: Option<string>, extra: map<string, bool>, salt: nat): (a: Account)
    ensures a.pk == 0 && a.email == NormalizeEmail(email)
    ensures a.firstName == firstName && a.lastName == lastName && a.username == username
    ensures a.phone == "" && a.address1 == "" && a.address2 == "" && a.city == ""
    ensures a.country == "" && a.province == "" && a.postalCode == ""
    ensures password.None? ==> a.password.Unusable?
    ensures forall p :: password == Some(p) ==> CheckPassword(a.password, p)
    ensures a.isStaff == GetOr(extra, "is_staff", false)
    ensures a.isSuperuser == GetOr(extra, "is_superuser", false)
    ensures a.isActive == GetOr(extra, "is_active", true)
    ensures a.emailConfirmed == GetOr(extra, "email_confirmed", false)
    ensures a.marketingConsent1 == GetOr(extra, "marketing_consent1", false)
    ensures a.marketingConsent2 == GetOr(extra, "marketing_consent2", false)
  {
    NewAccount(NormalizeEmail(email), firstName, lastName, username)
      .(isStaff := GetOr(extra, "is_staff", false),
        isSuperuser := GetOr(extra, "is_superuser", false),
        isActive := GetOr(extra, "is_active", true),
        emailConfirmed := GetOr(extra, "email_confirmed", false),
        marketingConsent1 := GetOr(extra, "marketing_consent1", false),
        marketingConsent2 := GetOr(extra, "marketing_consent2", false),
        password := SetPassword(password, salt))
  }

  datatype ManagerError =
    | EmailRequired   // `ValueError` for an empty email
    | NotStaff        // `ValueError`: is_staff supplied as something other than True
    | NotSuperuser    // `ValueError`: is_superuser supplied as something other than True
    | Integrity       // the save broke a unique column

  /**
   * `create_user`: an empty email raises; otherwise the normalised record
   * is built, its password set through the hasher, and saved once.
   */
  method CreateUser(db: Database, email: string, firstName: string, lastName: string, username: string,
                    password: Option<string>, extra: map<string, bool>, salt: nat)
    returns (r: Result<Account, ManagerError>)
    requires db.Valid()
    modifies db
    ensures db.Valid()
    ensures email == "" ==> r == Failure(EmailRequired)
    ensures email != "" ==>
      var record := CreatedRecord(email, firstName, lastName, username, password, extra, salt);
      && (r.Success? <==> !Clashes(old(db.accounts), record))
      && (r.Success? ==> r.value == record.(pk := old(db.nextPk)))
      && (r.Failure? ==> r.error == Integrity)
    ensures r.Success? ==> db.accounts == old(db.accounts)[old(db.nextPk) := r.value] && db.nextPk == old(db.nextPk) + 1
    ensures r.Failure? ==> db.accounts == old(db.accounts) && db.nextPk == old(db.nextPk)
  {
    if email == "" {
      return Failure(EmailRequired);
    }
    var normalized := NormalizeEmail(email);
    var user := NewAccount(normalized, firstName, lastName, username);
    user := user.(isStaff := GetOr(extra, "is_staff", false),
                  isSuperuser := GetOr(extra, "is_superuser", false),
                  isActive := GetOr(extra, "is_active", true),
                  emailConfirmed := GetOr(extra, "email_confirmed", false),
                  marketingConsent1 := GetOr(extra, "marketing_consent1", false),
                  marketingConsent2 := GetOr(extra, "marketing_consent2", false));
    user := user.(password := SetPassword(password, salt));
    var saved := db.Save(user);
    match saved
    case Success(row) => r := Success(row);
    case Failure(_) => r := Failure(Integrity);
  }

  /** `extra_fields` after the two `setdefault` calls of `create_superuser`. */
  function SuperuserFlags(extra: map<string, bool>): (m: map<string, bool>)
    ensures "is_staff" in m && "is_superuser" in m
    ensures m["is_staff"] == GetOr(extra, "is_staff", true)
    ensures m["is_superuser"] == GetOr(extra, "is_superuser", true)
    ensures forall k :: k in extra ==> k in m && m[k] == extra[k]
    ensures forall k :: k in m ==> k in extra || k == "is_staff" || k == "is_superuser"
  {
    var withStaff := if "is_staff" in extra then extra else extra["is_staff" := true];
    if "is_superuser" in withStaff then withStaff else withStaff["is_superuser" := true]
  }

  /** The username `create_superuser` works with: the one given, or the email's local part. */
  function SuperuserName(email: string, username: Option<string>): (name: string)
    ensures username.Some? ==> name == username.value
    ensures username.None? ==> name == UsernameFromEmail(email)
  {
    if username.None? then UsernameFromEmail(email) else username.value
  }

  /**
   * `create_superuser` as written: after the flag checks it calls
   * `create_user(email, first_name, username, last_name, password, ...)`,
   * whose third and fourth parameters are `last_name` and `username`, so
   * the username lands in the last-name column and the last name in the
   * username column.
   */
  method CreateSuperuser(db: Database, email: string, firstName: string, lastName: string,
                         password: Option<string>, username: Option<string>, extra: map<string, bool>, salt: nat)
    returns (r: Result<Account, ManagerError>)
    requires db.Valid()
    modifies db
    ensures db.Valid()
    ensures !GetOr(extra, "is_staff", true) ==> r == Failure(NotStaff)
    ensures GetOr(extra, "is_staff", true) && !GetOr(extra, "is_superuser", true) ==> r == Failure(NotSuperuser)
    ensures GetOr(extra, "is_staff", true) && GetOr(extra, "is_superuser", true) && email == "" ==> r == Failure(EmailRequired)
    ensures GetOr(extra, "is_staff", true) && GetOr(extra, "is_superuser", true) && email != "" ==>
      var record := CreatedRecord(email, firstName, SuperuserName(email, username), lastName, password, SuperuserFlags(extra), salt);
      && (r.Success? <==> !Clashes(old(db.accounts), record))
      && (r.Success? ==> r.value == record.(pk := old(db.nextPk)))
    ensures r.Success? ==> r.value.isStaff && r.value.isSuperuser
    ensures r.Success? ==> r.value.lastName == SuperuserName(email, username) && r.value.username == lastName
    ensures r.Success? ==> db.accounts == old(db.accounts)[old(db.nextPk) := r.value] && db.nextPk == old(db.nextPk) + 1
    ensures r.Failure? ==> db.accounts == old(db.accounts) && db.nextPk == old(db.nextPk)
  {
    var fields := extra;
    if "is_staff" !in fields {
      fields := fields["is_staff" := true];
    }
    if "is_superuser" !in fields {
      fields := fields["is_superuser" := true];
    }
    if !fields["is_staff"] {
      return Failure(NotStaff);
    }
    if !fields["is_superuser"] {
      return Failure(NotSuperuser);
    }
    var name := if username.None? then UsernameFromEmail(email) else username.value;
    r := CreateUser(db, email, firstName, name, lastName, password, fields, salt);
  }

  /**
   * `create_superuser` as its signature evidently intends: the same
   * checks and defaults, with `last_name` and `username` passed to
   * `create_user` in its own parameter order.
   */
  method CreateSuperuserIntended(db: Database, email: string, firstName: string, lastName: string,
                                 password: Option<string>, username: Option<string>, extra: map<string, bool>, salt: nat)
    returns (r: Result<Account, ManagerError>)
    requires db.Valid()
    modifies db
    ensures db.Valid()
    ensures !GetOr(extra, "is_staff", true) ==> r == Failure(NotStaff)
    ensures GetOr(extra, "is_staff", true) && !GetOr(extra, "is_superuser", true) ==> r == Failure(NotSuperuser)
    ensures GetOr(extra, "is_staff", true) && GetOr(extra, "is_superuser", true) && email == "" ==> r == Failure(EmailRequired)
    ensures GetOr(extra, "is_staff", true) && GetOr(extra, "is_superuser", true) && email != "" ==>
      var record := CreatedRecord(email, firstName, lastName, SuperuserName(email, username), password, SuperuserFlags(extra), salt);
      && (r.Success? <==> !Clashes(old(db.accounts), record))
      && (r.Success? ==> r.value == record.(pk := old(db.nextPk)))
    ensures r.Success? ==> r.value.isStaff && r.value.isSuperuser
    ensures r.Success? ==> r.value.lastName == lastName && r.value.username == SuperuserName(email, username)
    ensures r.Success? ==> db.accounts == old(db.accounts)[old(db.nextPk) := r.value] && db.nextPk == old(db.nextPk) + 1
    ensures r.Failure? ==> db.accounts == old(db.accounts) && db.nextPk == old(db.nextPk)
  {
    var fields := SuperuserFlags(extra);
    if !fields["is_staff"] {
      return Failure(NotStaff);
    }
    if !fields["is_superuser"] {
      return Failure(NotSuperuser);
    }
    var name := SuperuserName(email, username);
    r := CreateUser(db, email, firstName, lastName, name, password, fields, salt);
  }

  /**
   * What the as-written `create_superuser` stores for
   * `create_superuser("ada@" + domain, "Ada", "Lovelace", "pw")`:
   * username "Lovelace" and last name "ada", where the intended version
   * stores username "ada" and last name "Lovelace".
   */
  lemma SuperuserNamesSwapped(domain: string, salt: nat)
    ensures var email := "ada@" + domain;
      var name := SuperuserName(email, None);
      var asWritten := CreatedRecord(email, "Ada", name, "Lovelace", Some("pw"), SuperuserFlags(map[]), salt);
      var intended := CreatedRecord(email, "Ada", "Lovelace", name, Some("pw"), SuperuserFlags(map[]), salt);
      && asWritten.username == "Lovelace" && asWritten.lastName == "ada"
      && intended.username == "ada" && intended.lastName == "Lovelace"
  {
    var email := "ada@" + domain;
    assert SuperuserName(email, None) == "ada" by {
      UsernameFromEmailCases(email, "ada", domain);
      assert email == "ada" + "@" + domain;
    }
  }
}
