/**
 * The request handlers of users/views.py as transitions of one server:
 * the user table, the queue of e-mail jobs the handlers hand to the task
 * runner, and the session of the client making the requests.
 *
 * A request is given by its method and data: `None` for a GET, `Some`
 * of the submitted form for a POST. The current time (for token ages)
 * and the hasher's salt are parameters. Templates, message texts and
 * logging are not modelled; what a handler shows is a `Page`, and the
 * flash message it adds, if any, a `Notice`.
 */
module Views {
  import opened Wrappers
  import opened Text
  import opened Accounts
  import opened Store
  import opened Tokens
  import opened Forms

  /** A job handed to the task runner with `.delay(...)`. */
  datatype Mail =
    | Welcome(to: string, firstName: string)
    | PasswordResetMail(to: string, pk: nat)
    | ActivationMail(to: string, pk: nat)

  /** What a handler renders or redirects to. */
  datatype Page =
    | RegisterPage
    | ProfileRedirect
    | LoginRedirect
    | AccountDetailsPage(user: Account)
    | EditDetailsPage
    | ResetRequestPage
    | ResetDonePage(email: string)
    | ResetConfirmPage(validLink: bool)
    | ResetCompletePage

  /** The flash message a handler adds with `messages.*`. */
  datatype Notice =
    | ResetQueued
    | NoAccount
    | InvalidEmail
    | PasswordChanged
    | EmailAlreadyConfirmed
    | ActivationSent
    | AccountActivated

  datatype Response = Response(page: Page, notice: Option<Notice>)

  // ---------------------------------------------------------------------
  // The two link views, as verdicts on the stored state
  // ---------------------------------------------------------------------

  /** Which branch `account_activation_confirm` takes. */
  datatype ActivationVerdict = ActivationLinkInvalid | ConfirmedBefore(pk: nat) | Confirm(pk: nat)

  /**
   * The branch of `account_activation_confirm` for a decoded uid and a
   * token: an invalid link when the uid names no account or the token
   * does not check for it; otherwise "already confirmed" or "confirm".
   */
  function ActivationConfirmVerdict(scheme: Scheme, accounts: map<nat, Account>, uid: Option<string>, token: Token, now: nat, timeout: int)
    : (v: ActivationVerdict)
    ensures v.ActivationLinkInvalid? <==>
      LookUp(accounts, uid).None? || !CheckToken(scheme, LookUp(accounts, uid).value, token, now, timeout)
    ensures !v.ActivationLinkInvalid? ==>
      var user := LookUp(accounts, uid).value;
      v.pk == user.pk && (v.ConfirmedBefore? <==> user.emailConfirmed)
  {
    match LookUp(accounts, uid)
    case None => ActivationLinkInvalid
    case Some(user) =>
      if !CheckToken(scheme, user, token, now, timeout) then ActivationLinkInvalid
      else if user.emailConfirmed then ConfirmedBefore(user.pk)
      else Confirm(user.pk)
  }

  /** The table after the verdict: only a confirmation writes, and it writes only the flag of that row. */
  function AfterActivation(accounts: map<nat, Account>, v: ActivationVerdict): (r: map<nat, Account>)
    ensures r.Keys == accounts.Keys
    ensures forall pk :: pk in accounts ==> r[pk] == accounts[pk].(emailConfirmed := r[pk].emailConfirmed)
    ensures forall pk :: pk in accounts && r[pk] != accounts[pk] ==> v.Confirm? && pk == v.pk && r[pk].emailConfirmed
    ensures v.Confirm? && v.pk in accounts ==> r[v.pk].emailConfirmed
    ensures !v.Confirm? ==> r == accounts
  {
    if v.Confirm? && v.pk in accounts then accounts[v.pk := accounts[v.pk].(emailConfirmed := true)] else accounts
  }

  /** Which branch `password_reset_confirm` takes. */
  datatype ResetVerdict = ResetLinkInvalid | ShowResetForm(pk: nat) | SetNewPassword(pk: nat, password: string)

  /**
   * The branch of `password_reset_confirm`: an invalid link when the uid
   * names no account or the reset token does not check for it; the form
   * again (a GET, or a POST whose form is invalid); or the new password.
   */
  function ResetConfirmVerdict(accounts: map<nat, Account>, uid: Option<string>, token: Token, post: Option<NewPasswords>, now: nat, timeout: int)
    : (v: ResetVerdict)
    ensures v.ResetLinkInvalid? <==>
      LookUp(accounts, uid).None? || !CheckResetToken(LookUp(accounts, uid).value, token, now, timeout)
    ensures v.SetNewPassword? <==> !v.ResetLinkInvalid? && post.Some? && ResetConfirmValid(post.value)
    ensures !v.ResetLinkInvalid? ==> v.pk == LookUp(accounts, uid).value.pk
    ensures v.SetNewPassword? ==> v.password == Strip(post.value.password1)
  {
    match LookUp(accounts, uid)
    case None => ResetLinkInvalid
    case Some(user) =>
      if !CheckResetToken(user, token, now, timeout) then ResetLinkInvalid
      else match post
        case None => ShowResetForm(user.pk)
        case Some(f) => if ResetConfirmValid(f) then SetNewPassword(user.pk, Strip(f.password1)) else ShowResetForm(user.pk)
  }

  /** The table after the verdict: only a new password writes, and only to the password of that row. */
  function AfterReset(accounts: map<nat, Account>, v: ResetVerdict, salt: nat): (r: map<nat, Account>)
    ensures r.Keys == accounts.Keys
    ensures forall pk :: pk in accounts ==> r[pk] == accounts[pk].(password := r[pk].password)
    ensures forall pk :: pk in accounts && r[pk] != accounts[pk] ==> v.SetNewPassword? && pk == v.pk
    ensures v.SetNewPassword? && v.pk in accounts ==>
      forall p :: CheckPassword(r[v.pk].password, p) <==> p == v.password
  {
    if v.SetNewPassword? && v.pk in accounts then
      accounts[v.pk := accounts[v.pk].(password := SetPassword(Some(v.password), salt))]
    else accounts
  }

  // ---------------------------------------------------------------------
  // Properties of the link views
  // ---------------------------------------------------------------------

  /** The link the activation mail carries confirms the unconfirmed account it was made for, while young enough. */
  lemma ActivationLinkConfirms(scheme: Scheme, accounts: map<nat, Account>, nextPk: nat, pk: nat, issued: nat, now: nat, timeout: int)
    requires Consistent(accounts, nextPk) && pk in accounts && !accounts[pk].emailConfirmed
    requires now - issued <= timeout
    ensures ActivationLinkToken(scheme, accounts[pk], issued).Some?
    ensures var token := ActivationLinkToken(scheme, accounts[pk], issued).value;
      ActivationConfirmVerdict(scheme, accounts, Some(Decimal(pk)), token, now, timeout) == Confirm(pk)
    ensures AfterActivation(accounts, Confirm(pk))[pk].emailConfirmed
  {
    LookUpOwnLink(accounts, pk);
    MadeTokenChecks(scheme, accounts[pk], issued, now, timeout);
  }

  /**
   * Redeeming an activation token a second time, at any later time,
   * finds an invalid link and changes nothing: the confirmation changed
   * the fingerprint the token was checked against.
   */
  lemma ActivationReplayChangesNothing(scheme: Scheme, accounts: map<nat, Account>, nextPk: nat, uid: Option<string>, token: Token,
                                       now: nat, later: nat, timeout: int)
    requires Consistent(accounts, nextPk)
    requires ActivationConfirmVerdict(scheme, accounts, uid, token, now, timeout).Confirm?
    ensures var after := AfterActivation(accounts, ActivationConfirmVerdict(scheme, accounts, uid, token, now, timeout));
      var again := ActivationConfirmVerdict(scheme, after, uid, token, later, timeout);
      again == ActivationLinkInvalid && AfterActivation(after, again) == after
  {
    var user := LookUp(accounts, uid).value;
    var pk := ParseDecimal(uid.value).value;
    var confirmed := user.(emailConfirmed := true);
    assert AfterActivation(accounts, Confirm(user.pk)) == accounts[pk := confirmed];
    assert LookUp(accounts[pk := confirmed], uid) == Some(confirmed);
    ConfirmingChangesFingerprint(scheme, user, token.timestamp);
    assert user.(emailConfirmed := false) == user;
  }

  /**
   * A link mailed for an account never reaches the "already confirmed"
   * branch: once that account is confirmed, the link is invalid.
   */
  lemma LinkNeverFindsConfirmedAccount(scheme: Scheme, accounts: map<nat, Account>, nextPk: nat, issuedFor: Account, issued: nat,
                                       now: nat, timeout: int)
    requires Consistent(accounts, nextPk) && issuedFor.pk in accounts && accounts[issuedFor.pk].emailConfirmed
    requires ActivationLinkToken(scheme, issuedFor, issued).Some?
    ensures var token := ActivationLinkToken(scheme, issuedFor, issued).value;
      ActivationConfirmVerdict(scheme, accounts, Some(Decimal(issuedFor.pk)), token, now, timeout) == ActivationLinkInvalid
  {
    LookUpOwnLink(accounts, issuedFor.pk);
    LinkTokenNeverChecksOnConfirmed(scheme, issuedFor, accounts[issuedFor.pk], issued, now, timeout);
  }

  /**
   * As written, a token mailed to account 1 (email "23@example.com")
   * confirms account 12 (email "3@example.com") once its uid is edited
   * to "12".
   */
  lemma ConcatenatedLinkConfirmsAnotherAccount(accounts: map<nat, Account>, issued: nat, now: nat, timeout: int)
    requires now - issued <= timeout
    requires 12 in accounts && accounts[12] == NewAccount("3@example.com", "", "", "").(pk := 12)
    ensures var holder := NewAccount("23@example.com", "", "", "").(pk := 1);
      ActivationConfirmVerdict(Concatenated, accounts, Some("12"), MakeToken(Concatenated, holder, issued), now, timeout) == Confirm(12)
  {
    ConcatenatedTokenCrossesAccounts(issued, now, timeout);
    assert Decimal(12) == "12" by {
      assert Decimal(1) == "1";
      assert Decimal(12) == Decimal(1) + [DigitChar(2)];
    }
    LookUpOwnLink(accounts, 12);
  }

  /** With the corrected fingerprint, a token confirms only the account it was made for. */
  lemma DelimitedLinkConfirmsOnlyItsAccount(accounts: map<nat, Account>, uid: Option<string>, issuedFor: Account, issued: nat,
                                            now: nat, timeout: int)
    requires ActivationConfirmVerdict(Delimited, accounts, uid, MakeToken(Delimited, issuedFor, issued), now, timeout).Confirm?
    ensures ActivationConfirmVerdict(Delimited, accounts, uid, MakeToken(Delimited, issuedFor, issued), now, timeout).pk == issuedFor.pk
  {
    DelimitedTokenBindsAccount(issuedFor, LookUp(accounts, uid).value, issued, now, timeout);
  }

  /**
   * After a successful reset whose new hash differs from the old one,
   * the same reset link is invalid at any later time.
   */
  lemma ResetLinkSingleUse(accounts: map<nat, Account>, nextPk: nat, uid: Option<string>, token: Token, post: Option<NewPasswords>,
                           now: nat, later: nat, timeout: int, salt: nat, again: Option<NewPasswords>)
    requires Consistent(accounts, nextPk)
    requires ResetConfirmVerdict(accounts, uid, token, post, now, timeout).SetNewPassword?
    requires LookUp(accounts, uid).value.password != SetPassword(Some(Strip(post.value.password1)), salt)
    ensures var after := AfterReset(accounts, ResetConfirmVerdict(accounts, uid, token, post, now, timeout), salt);
      ResetConfirmVerdict(after, uid, token, again, later, timeout) == ResetLinkInvalid
  {
    var user := LookUp(accounts, uid).value;
    var pk := ParseDecimal(uid.value).value;
    var changed := user.(password := SetPassword(Some(Strip(post.value.password1)), salt));
    assert AfterReset(accounts, SetNewPassword(user.pk, Strip(post.value.password1)), salt) == accounts[pk := changed];
    assert LookUp(accounts[pk := changed], uid) == Some(changed);
    PasswordChangeInvalidatesResetToken(user, changed, token.timestamp, later, timeout);
  }

  // ---------------------------------------------------------------------
  // The server
  // ---------------------------------------------------------------------

  class Server {
    const db: Database
    /** The fingerprint the activation generator signs. */
    const scheme: Scheme
    /** `PASSWORD_RESET_TIMEOUT`, in seconds; both generators use it. */
    const timeout: int
    /** The e-mail jobs queued so far, oldest first. */
    var outbox: seq<Mail>
    /** The pk of the account the client is logged in as. */
    var session: Option<nat>

    ghost predicate Valid()
      reads this, db
    {
      db.Valid() && (session.Some? ==> session.value in db.accounts)
    }

    constructor (db: Database, scheme: Scheme, timeout: int)
      requires db.Valid()
      ensures Valid() && this.db == db && this.scheme == scheme && this.timeout == timeout
      ensures outbox == [] && session == None
    {
      this.db := db;
      this.scheme := scheme;
      this.timeout := timeout;
      outbox := [];
      session := None;
    }

    /** `user.save()` of a row that is stored as it is: the table does not change. */
    static method WriteBackStored(db: Database, user: Account)
      requires db.Valid() && user.pk in db.accounts && db.accounts[user.pk] == user
      modifies db
      ensures db.Valid() && db.accounts == old(db.accounts) && db.nextPk == old(db.nextPk)
    {
      RewriteNeverClashes(db.accounts, db.nextPk, user);
      var saved := db.Save(user);
    }

    /** `task.delay(...)`: the job joins the end of the queue. */
    method Delay(job: Mail)
      modifies this`outbox
      ensures outbox == old(outbox) + [job]
    {
      outbox := outbox + [job];
    }

    /**
     * `register`: a valid form is saved, the flag is written false once
     * more, the client is logged in, and one welcome mail is queued. Any
     * other request changes nothing.
     */
    method Register(post: Option<Registration>, salt: nat) returns (resp: Response)
      requires Valid()
      modifies this, db
      ensures Valid()
      ensures post.Some? && RegistrationValid(old(db.accounts), post.value) ==>
        var user := RegisteredAccount(post.value, salt).(pk := old(db.nextPk));
        && db.accounts == old(db.accounts)[user.pk := user] && db.nextPk == old(db.nextPk) + 1
        && !user.emailConfirmed
        && session == Some(user.pk)
        && outbox == old(outbox) + [Welcome(user.email, user.firstName)]
        && resp == Response(ProfileRedirect, None)
      ensures !(post.Some? && RegistrationValid(old(db.accounts), post.value)) ==>
        && db.accounts == old(db.accounts) && db.nextPk == old(db.nextPk)
        && session == old(session) && outbox == old(outbox)
        && resp == Response(RegisterPage, None)
    {
      if post.None? || !RegistrationValid(db.accounts, post.value) {
        return Response(RegisterPage, None);
      }
      var user := SaveNewUser(db, post.value, salt);
      session := Some(user.pk);
      Delay(Welcome(user.email, user.firstName));
      resp := Response(ProfileRedirect, None);
    }

    /** The two writes of `register` for a valid form: `form.save()`, then `user.save()` with the flag false. */
    static method SaveNewUser(db: Database, f: Registration, salt: nat) returns (user: Account)
      requires db.Valid() && RegistrationValid(db.accounts, f)
      modifies db
      ensures db.Valid()
      ensures user == RegisteredAccount(f, salt).(pk := old(db.nextPk)) && user.pk in db.accounts
      ensures db.accounts == old(db.accounts)[user.pk := user] && db.nextPk == old(db.nextPk) + 1
    {
      user := SaveRegistration(db, f, salt, true);
      WriteBackStored(db, user.(emailConfirmed := false));
    }

    /**
     * `update_account_details` (login required): a valid form's instance
     * is cleaned once more and saved over the client's row; an invalid
     * form or a GET changes nothing.
     */
    method UpdateAccountDetails(post: Option<ProfileForm>) returns (resp: Response)
      requires Valid()
      modifies db
      ensures Valid() && db.nextPk == old(db.nextPk)
      ensures session.None? ==> db.accounts == old(db.accounts) && resp == Response(LoginRedirect, None)
      ensures session.Some? ==>
        var instance := old(db.accounts)[session.value];
        && (post.None? ==> db.accounts == old(db.accounts) && resp == Response(AccountDetailsPage(instance), None))
        && (post.Some? && !ProfileValid(old(db.accounts), instance, post.value) ==>
              db.accounts == old(db.accounts) && resp == Response(EditDetailsPage, None))
        && (post.Some? && ProfileValid(old(db.accounts), instance, post.value) ==>
              var user := Sanitized(ProfileAccount(instance, post.value));
              db.accounts == old(db.accounts)[session.value := user] && resp == Response(AccountDetailsPage(user), None))
    {
      if session.None? {
        return Response(LoginRedirect, None);
      }
      var instance := db.accounts[session.value];
      if post.None? {
        return Response(AccountDetailsPage(instance), None);
      }
      var valid, user := ValidateProfile(db.accounts, instance, post.value);
      if !valid {
        return Response(EditDetailsPage, None);
      }
      user := SaveProfile(instance, post.value, user);
      resp := Response(AccountDetailsPage(user), None);
    }

    /** The branch of `update_account_details` for a valid form: `user.clean()`, then `user.save()`. */
    method SaveProfile(instance: Account, f: ProfileForm, built: Account) returns (user: Account)
      requires Valid() && instance.pk in db.accounts && db.accounts[instance.pk] == instance
      requires ProfileValid(db.accounts, instance, f) && built == Sanitized(ProfileAccount(instance, f))
      modifies db
      ensures Valid() && db.nextPk == old(db.nextPk)
      ensures user == built && db.accounts == old(db.accounts)[instance.pk := user]
    {
      user := Clean(built);
      CleanIdempotent(ProfileAccount(instance, f));
      ValidProfileNeverClashes(db.accounts, instance, f);
      var saved := db.Save(user);
    }

    /**
     * `password_reset_request`: a valid form whose email some account
     * holds queues one reset mail for that account; every other request
     * queues nothing. No request writes to the table.
     */
    method PasswordResetRequest(post: Option<string>) returns (resp: Response)
      requires Valid()
      modifies this`outbox
      ensures Valid()
      ensures post.None? ==> outbox == old(outbox) && resp == Response(ResetRequestPage, None)
      ensures post.Some? && ResetRequestEmail(post.value).None? ==>
        outbox == old(outbox) && resp == Response(ResetRequestPage, Some(InvalidEmail))
      ensures post.Some? && ResetRequestEmail(post.value).Some? ==>
        var email := ResetRequestEmail(post.value).value;
        && (!EmailInUse(db.accounts, email) ==> outbox == old(outbox) && resp == Response(ResetRequestPage, Some(NoAccount)))
        && (EmailInUse(db.accounts, email) ==>
              exists pk :: pk in db.accounts && db.accounts[pk].email == email
                && outbox == old(outbox) + [PasswordResetMail(email, pk)]
                && resp == Response(ResetDonePage(email), Some(ResetQueued)))
    {
      if post.None? {
        return Response(ResetRequestPage, None);
      }
      var cleaned := ResetRequestEmail(post.value);
      if cleaned.None? {
        return Response(ResetRequestPage, Some(InvalidEmail));
      }
      var email := cleaned.value;
      var user := db.FirstWithEmail(email);
      if user.None? {
        return Response(ResetRequestPage, Some(NoAccount));
      }
      Delay(PasswordResetMail(email, user.value.pk));
      resp := Response(ResetDonePage(email), Some(ResetQueued));
    }

    /**
     * `password_reset_confirm`: with a valid link, a valid POST sets the
     * new password and saves the row; a GET or an invalid POST shows the
     * form; an invalid link shows the invalid-link page. Only a new
     * password writes.
     */
    method PasswordResetConfirm(uid: Option<string>, token: Token, post: Option<NewPasswords>, now: nat, salt: nat)
      returns (resp: Response)
      requires Valid()
      modifies db
      ensures Valid() && db.nextPk == old(db.nextPk)
      ensures var v := ResetConfirmVerdict(old(db.accounts), uid, token, post, now, timeout);
        && db.accounts == AfterReset(old(db.accounts), v, salt)
        && resp == match v
             case ResetLinkInvalid => Response(ResetConfirmPage(false), None)
             case ShowResetForm(_) => Response(ResetConfirmPage(true), None)
             case SetNewPassword(_, _) => Response(ResetCompletePage, Some(PasswordChanged))
    {
      var found := LookUp(db.accounts, uid);
      if found.None? || !CheckResetToken(found.value, token, now, timeout) {
        return Response(ResetConfirmPage(false), None);
      }
      var user := found.value;
      if post.Some? && ResetConfirmValid(post.value) {
        user := user.(password := SetPassword(Some(Strip(post.value.password1)), salt));
        RewriteNeverClashes(db.accounts, db.nextPk, user);
        var saved := db.Save(user);
        return Response(ResetCompletePage, Some(PasswordChanged));
      }
      resp := Response(ResetConfirmPage(true), None);
    }

    /**
     * `account_activation_request` (login required): a POST from an
     * unconfirmed account queues one activation mail; a confirmed account
     * or a GET queues nothing. Every case redirects to the profile.
     */
    method AccountActivationRequest(post: bool) returns (resp: Response)
      requires Valid()
      modifies this`outbox
      ensures Valid()
      ensures session.None? ==> outbox == old(outbox) && resp == Response(LoginRedirect, None)
      ensures session.Some? ==>
        var user := db.accounts[session.value];
        && (!post ==> outbox == old(outbox) && resp == Response(ProfileRedirect, None))
        && (post && user.emailConfirmed ==> outbox == old(outbox) && resp == Response(ProfileRedirect, Some(EmailAlreadyConfirmed)))
        && (post && !user.emailConfirmed ==>
              outbox == old(outbox) + [ActivationMail(user.email, user.pk)] && resp == Response(ProfileRedirect, Some(ActivationSent)))
    {
      if session.None? {
        return Response(LoginRedirect, None);
      }
      if !post {
        return Response(ProfileRedirect, None);
      }
      var user := db.accounts[session.value];
      if user.emailConfirmed {
        return Response(ProfileRedirect, Some(EmailAlreadyConfirmed));
      }
      Delay(ActivationMail(user.email, user.pk));
      resp := Response(ProfileRedirect, Some(ActivationSent));
    }

    /**
     * `account_activation_confirm`: a valid link for an unconfirmed
     * account sets its flag and writes only that column; a confirmed
     * account is left as it is; an invalid link shows the invalid-link
     * page of the reset flow.
     */
    method AccountActivationConfirm(uid: Option<string>, token: Token, now: nat) returns (resp: Response)
      requires Valid()
      modifies db
      ensures Valid() && db.nextPk == old(db.nextPk)
      ensures var v := ActivationConfirmVerdict(scheme, old(db.accounts), uid, token, now, timeout);
        && db.accounts == AfterActivation(old(db.accounts), v)
        && resp == match v
             case ActivationLinkInvalid => Response(ResetConfirmPage(false), None)
             case ConfirmedBefore(_) => Response(ProfileRedirect, Some(EmailAlreadyConfirmed))
             case Confirm(_) => Response(ProfileRedirect, Some(AccountActivated))
    {
      var found := LookUp(db.accounts, uid);
      if found.None? || !CheckToken(scheme, found.value, token, now, timeout) {
        return Response(ResetConfirmPage(false), None);
      }
      var user := found.value;
      if user.emailConfirmed {
        return Response(ProfileRedirect, Some(EmailAlreadyConfirmed));
      }
      user := user.(emailConfirmed := true);
      db.SaveEmailConfirmed(user);
      resp := Response(ProfileRedirect, Some(AccountActivated));
    }
  }
}
